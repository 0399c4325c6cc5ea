/** When waiting for a group can end: for all of its tasks exactly if none is stuck, and for
    any of them exactly if one is left for the call. */
module RuntimeDrain {
  import opened Common
  import opened Runtime
  import opened RuntimeInvariants
  import opened RuntimePlacement
  import opened RuntimeGroups
  import opened RuntimeSafety
  import opened RuntimeStuck
  import opened RuntimeProgress
  import opened RuntimeWaiting
  import opened RuntimeHandout

  // ----- continuations ----------------------------------------------------

  /** State `s` can be reached from state `o`. */
  ghost predicate From(c: Config, o: State, s: State) {
    exists path :: Path(c, path) && path[0] == o && path[|path| - 1] == s
  }

  lemma FromHere(c: Config, s: State)
    ensures From(c, s, s)
  {
    assert Path(c, [s]) && [s][|[s]| - 1] == s;
  }

  lemma FromMoves(c: Config, o: State, s: State, s': State)
    requires From(c, o, s) && Moves(c, s, s')
    ensures From(c, o, s')
  {
    var path :| Path(c, path) && path[0] == o && path[|path| - 1] == s;
    PathExtends(c, path, s');
    var longer := path + [s'];
    assert Path(c, longer) && longer[0] == o && longer[|longer| - 1] == s';
  }

  /** Reached from `o` without getting a further task of group `g` stuck, and without a
      further one joining it. */
  ghost predicate Clean(c: Config, o: State, s: State, g: nat) {
    && From(c, o, s) && Inv(c, s) && NoneJoins(o, s, g)
    && (forall t :: Stuck(c, s, g, t) ==> Stuck(c, o, g, t))
  }

  lemma CleanHere(c: Config, o: State, g: nat)
    requires Inv(c, o)
    ensures Clean(c, o, o, g)
  {
    FromHere(c, o);
  }

  /** Only the joining of a task makes a group count it. */
  lemma OutsideStays(c: Config, s: State, s': State, step: Step, g: nat)
    requires Counting(s) && Grouped(c, s) && Next(c, s, s', step) && !step.Joins?
    ensures NoneJoins(s, s', g)
  {
    if step.Fails? { OutsideByFail(s, s', step.t, g); }
    else if ProducerMoves(c, s, s', step) { PhasesByProducer(c, s, s', step); }
    else if step.Notifies? { OutsideByNotify(c, s, s', step.e, g); }
    else if ExecutorMoves(c, s, s', step) { PhasesByExecutor(c, s, s', step); }
    else if CollectorMoves(s, s', step) { OutsideByCollector(c, s, s', step, g); }
    else if step.CreateTask? { OutsideByCreation(c, s, s', step.t, step.attr, g); }
  }

  lemma OutsideByFail(s: State, s': State, t: nat, g: nat)
    requires Counting(s) && FailStep(s, s', t)
    ensures NoneJoins(s, s', g)
  {
    assert TaskOk(s.attrs[t], s.tasks[t]);
  }

  lemma OutsideByCreation(c: Config, s: State, s': State, t: nat, attr: Attributes, g: nat)
    requires CreateStep(c, s, s', t, attr)
    ensures NoneJoins(s, s', g)
  {
  }

  lemma OutsideByCollector(c: Config, s: State, s': State, step: Step, g: nat)
    requires Grouped(c, s) && CollectorMoves(s, s', step)
    ensures NoneJoins(s, s', g)
  {
    if step.Takes? { HeadWaits(c, s, s.collectors[step.j].group); }
  }

  lemma OutsideByNotify(c: Config, s: State, s': State, e: Entry, g: nat)
    requires Counting(s) && NotifyStep(c, s, s', e)
    ensures NoneJoins(s, s', g)
  {
    assert TaskOk(s.attrs[e.task], s.tasks[e.task]);
    assert EntryOk(s.attrs[e.task], s.tasks[e.task], e.instance, s.stage[e]);
  }

  lemma NotNewlyStuck(c: Config, s: State, s': State, step: Step, g: nat)
    requires Inv(c, s) && Inv(c, s') && Next(c, s, s', step) && !Sticks(c, s, step, g)
    ensures forall t :: Stuck(c, s', g, t) ==> Stuck(c, s, g, t)
  {
    assert Keeps(c, s, OfStages) && Keeps(c, s, OfCounts) && Keeps(c, s, OfAims) && Keeps(c, s, OfGroups);
    assert Keeps(c, s', OfCounts);
    forall t | Stuck(c, s', g, t) ensures Stuck(c, s, g, t) {
      if !Stuck(c, s, g, t) { NewlyStuck(c, s, s', step, g, t); }
    }
  }

  lemma CleanNext(c: Config, o: State, s: State, s': State, step: Step, g: nat)
    requires Clean(c, o, s, g) && Next(c, s, s', step) && !Sticks(c, s, step, g) && !step.Joins?
    ensures Clean(c, o, s', g)
  {
    assert Moves(c, s, s');
    FromMoves(c, o, s, s');
    NextKept(c, s, s', step);
    NotNewlyStuck(c, s, s', step, g);
    assert Keeps(c, s, OfCounts) && Keeps(c, s, OfGroups);
    OutsideStays(c, s, s', step, g);
  }

  lemma Go(c: Config, o: State, s: State, step: Step, g: nat) returns (s': State)
    requires Clean(c, o, s, g) && Can(c, s, step) && !Sticks(c, s, step, g) && !step.Joins?
    ensures Next(c, s, s', step) && Clean(c, o, s', g)
  {
    s' :| Next(c, s, s', step);
    CleanNext(c, o, s, s', step, g);
  }

  lemma InvValid(c: Config, s: State)
    requires Inv(c, s)
    ensures c.Valid()
  {
    assert Keeps(c, s, OfAims);
  }

  // ----- what is left alone -----------------------------------------------

  /** Of tasks, groups and calls nothing changes but the record of task `t`, and of that
      not the phase. */
  ghost predicate Only(s: State, s': State, t: nat) {
    && s'.attrs == s.attrs && s'.groups == s.groups && s'.collectors == s.collectors
    && (forall u :: u in s'.tasks <==> u in s.tasks)
    && (forall u :: u in s.tasks && u != t ==> s'.tasks[u] == s.tasks[u])
    && (t in s.tasks ==> s'.tasks[t].phase == s.tasks[t].phase)
  }

  /** Nor the producer. */
  ghost predicate Resting(s: State, s': State, t: nat) {
    Only(s, s', t) && (t in s.tasks ==> s'.tasks[t].producer == s.tasks[t].producer)
  }

  lemma RestingTwice(s: State, s': State, s'': State, t: nat)
    requires Resting(s, s', t) && Resting(s', s'', t)
    ensures Resting(s, s'', t)
  {
  }

  lemma OnlyTwice(s: State, s': State, s'': State, t: nat)
    requires Only(s, s', t) && Only(s', s'', t)
    ensures Only(s, s'', t)
  {
  }

  // ----- queues -----------------------------------------------------------

  lemma PopEffect(c: Config, s: State, s': State, q: QueueId, t: nat)
    requires Next(c, s, s', Pops(q, q.worker, true))
    ensures Resting(s, s', t) && s'.tasks == s.tasks
    ensures q in s'.queues && s'.queues[q] == s.queues[q][1..]
    ensures s'.stage == s.stage[s.queues[q][0] := Popped(q.worker, true)]
  {
  }

  /** The heads of a queue can be taken until there is room in it. */
  lemma MakeRoom(c: Config, o: State, s: State, g: nat, t: nat, q: QueueId) returns (s': State)
    requires Clean(c, o, s, g) && c.limit > 0 && q in s.queues
    ensures Clean(c, o, s', g) && Resting(s, s', t) && s'.tasks == s.tasks
    ensures q in s'.queues && |s'.queues[q]| < c.limit
    decreases |s.queues[q]|
  {
    if |s.queues[q]| < c.limit {
      s' := s;
    } else {
      var s1 := PopHead(c, o, s, g, t, q);
      s' := MakeRoom(c, o, s1, g, t, q);
    }
  }

  lemma PopHead(c: Config, o: State, s: State, g: nat, t: nat, q: QueueId) returns (s': State)
    requires Clean(c, o, s, g) && q in s.queues && s.queues[q] != []
    ensures Clean(c, o, s', g) && Resting(s, s', t) && s'.tasks == s.tasks
    ensures q in s'.queues && s'.queues[q] == s.queues[q][1..]
    ensures s'.stage == s.stage[s.queues[q][0] := Popped(q.worker, true)]
  {
    assert Keeps(c, s, OfNames);
    PopCan(c, s, q);
    s' := Go(c, o, s, Pops(q, q.worker, true), g);
    PopEffect(c, s, s', q, t);
  }

  /** The queue that holds an instance. */
  lemma HeldIn(c: Config, s: State, e: Entry)
    requires Placed(s) && e in s.stage && s.stage[e].Queued?
    ensures s.stage[e].queue in s.queues && s.queues[s.stage[e].queue] != []
  {
  }

  /** Heads can be taken until it is the turn of an instance. */
  lemma PopUntil(c: Config, o: State, s: State, g: nat, t: nat, e: Entry) returns (s': State)
    requires Clean(c, o, s, g) && e in s.stage && s.stage[e].Queued?
    ensures Clean(c, o, s', g) && Resting(s, s', t) && s'.tasks == s.tasks && e in s'.stage && s'.stage[e].Popped?
    decreases if s.stage[e].queue in s.queues then |s.queues[s.stage[e].queue]| else 0
  {
    assert Keeps(c, s, OfPlaces);
    HeldIn(c, s, e);
    var q := s.stage[e].queue;
    s' := PopHead(c, o, s, g, t, q);
    if s.queues[q][0] != e {
      assert s'.stage[e] == Queued(q);
      var s1 := s';
      s' := PopUntil(c, o, s1, g, t, e);
    }
  }

  // ----- producers --------------------------------------------------------

  /** All instances have been pushed. */
  predicate Produced(attr: Attributes, pc: ProducerPc) {
    pc.Started? || (pc.Count? && pc.k == attr.instances)
  }

  /** How far a producer is from the end of its loop. */
  function ProducerRank(n: nat, pc: ProducerPc): nat {
    match pc
    case Publish => 3 * n + 3
    case Count(k) => if k <= n then 3 * (n - k) + 2 else 0
    case Aim(k) => if k <= n then 3 * (n - k) + 1 else 0
    case Push(k, _) => if k <= n then 3 * (n - k) else 0
    case _ => 0
  }

  predicate StepOf(step: Step, t: nat) {
    match step
    case Publishes(u) => u == t
    case Counts(u) => u == t
    case Aims(u, _) => u == t
    case Pushes(u) => u == t
    case _ => false
  }

  /** The producer of task `t` gets further. */
  ghost predicate ComesOn(s: State, s': State, t: nat) {
    && Exists(s, t) && t in s'.tasks && Only(s, s', t)
    && ProducerRank(s.attrs[t].instances, s'.tasks[t].producer)
       < ProducerRank(s.attrs[t].instances, s.tasks[t].producer)
  }

  lemma PublishComes(s: State, s': State, t: nat)
    requires PublishStep(s, s', t)
    ensures ComesOn(s, s', t)
  {
  }

  lemma CountComes(s: State, s': State, t: nat)
    requires CountStep(s, s', t)
    ensures ComesOn(s, s', t)
  {
  }

  lemma AimComes(c: Config, s: State, s': State, t: nat, q: QueueId)
    requires AimStep(c, s, s', t, q) && ProducerOk(s.attrs[t], s.tasks[t])
    ensures ComesOn(s, s', t)
  {
  }

  lemma PushComes(c: Config, s: State, s': State, t: nat)
    requires PushStep(c, s, s', t) && ProducerOk(s.attrs[t], s.tasks[t])
    ensures ComesOn(s, s', t)
  {
  }

  lemma ProducerEffects(c: Config, s: State, s': State, step: Step, t: nat)
    requires Next(c, s, s', step) && StepOf(step, t) && ProducerOk(s.attrs[t], s.tasks[t])
    ensures ComesOn(s, s', t)
  {
    if step.Publishes? { PublishComes(s, s', t); }
    else if step.Counts? { CountComes(s, s', t); }
    else if step.Aims? { AimComes(c, s, s', t, step.q); }
    else { PushComes(c, s, s', t); }
  }

  /** A counted task of the group that no call has got yet. */
  ghost predicate Awaited(s: State, g: nat, t: nat) {
    Exists(s, t) && PhaseIn(s, g, t).Unfinished?
  }

  lemma OnlyAwaited(s: State, s': State, g: nat, t: nat)
    requires Awaited(s, g, t) && Only(s, s', t)
    ensures Awaited(s', g, t) && s'.attrs[t] == s.attrs[t]
  {
  }

  lemma PushReady(c: Config, s: State, t: nat)
    requires Inv(c, s) && Exists(s, t) && s.tasks[t].producer.Push?
    ensures s.tasks[t].producer.queue in s.queues
  {
    assert Keeps(c, s, OfNames) && Keeps(c, s, OfAims);
    assert Suits(c, s.attrs[t], s.tasks[t].producer.queue);
  }

  /** The producer of a task that is not stuck can take the next step, if it has room. */
  lemma ProducerNext(c: Config, s: State, g: nat, t: nat) returns (step: Step)
    requires Inv(c, s) && !Stuck(c, s, g, t) && Awaited(s, g, t) && !Produced(s.attrs[t], s.tasks[t].producer)
    requires var pc := s.tasks[t].producer; pc.Push? && pc.queue in s.queues ==> |s.queues[pc.queue]| < c.limit
    ensures StepOf(step, t) && Can(c, s, step)
  {
    var attr, pc := s.attrs[t], s.tasks[t].producer;
    InvValid(c, s);
    assert Keeps(c, s, OfNames) && Keeps(c, s, OfCounts);
    assert TaskOk(attr, s.tasks[t]);
    if pc.Publish? {
      PublishCan(c, s, t);
      step := Publishes(t);
    } else if pc.Count? {
      CountCan(c, s, t);
      step := Counts(t);
    } else if pc.Aim? {
      AimCan(c, s, t);
      var q :| Can(c, s, Aims(t, q));
      step := Aims(t, q);
    } else {
      PushReady(c, s, t);
      PushCan(c, s, t);
      step := Pushes(t);
    }
  }

  lemma NextOfTask(c: Config, o: State, s: State, g: nat, t: nat) returns (step: Step)
    requires Clean(c, o, s, g) && !Stuck(c, o, g, t) && Awaited(s, g, t)
    requires !Produced(s.attrs[t], s.tasks[t].producer)
    requires var pc := s.tasks[t].producer; pc.Push? && pc.queue in s.queues ==> |s.queues[pc.queue]| < c.limit
    ensures StepOf(step, t) && Can(c, s, step) && TaskOk(s.attrs[t], s.tasks[t])
  {
    assert Keeps(c, s, OfCounts);
    assert !Stuck(c, s, g, t);
    step := ProducerNext(c, s, g, t);
  }

  lemma HasLimit(c: Config, o: State, s: State, g: nat, t: nat)
    requires Clean(c, o, s, g) && !Stuck(c, o, g, t) && Awaited(s, g, t)
    ensures c.limit > 0 && s.attrs[t].instances > 0
  {
    InvValid(c, s);
    assert !Stuck(c, s, g, t);
  }

  lemma ProducerGoes(c: Config, o: State, s: State, g: nat, t: nat) returns (s': State)
    requires Clean(c, o, s, g) && !Stuck(c, o, g, t) && Awaited(s, g, t)
    requires !Produced(s.attrs[t], s.tasks[t].producer)
    ensures Clean(c, o, s', g) && Only(s, s', t) && Awaited(s', g, t)
    ensures ProducerRank(s.attrs[t].instances, s'.tasks[t].producer)
            < ProducerRank(s.attrs[t].instances, s.tasks[t].producer)
  {
    HasLimit(c, o, s, g, t);
    var s1 := s;
    var pc := s.tasks[t].producer;
    if pc.Push? && pc.queue in s.queues { s1 := MakeRoom(c, o, s, g, t, pc.queue); }
    var step := NextOfTask(c, o, s1, g, t);
    s' := Go(c, o, s1, step, g);
    ProducerEffects(c, s1, s', step, t);
    OnlyAwaited(s, s', g, t);
  }

  lemma ProducerEnds(c: Config, o: State, s: State, g: nat, t: nat) returns (s': State)
    requires Clean(c, o, s, g) && !Stuck(c, o, g, t) && Awaited(s, g, t)
    ensures Clean(c, o, s', g) && Only(s, s', t) && Awaited(s', g, t) && Produced(s'.attrs[t], s'.tasks[t].producer)
    decreases ProducerRank(s.attrs[t].instances, s.tasks[t].producer)
  {
    if Produced(s.attrs[t], s.tasks[t].producer) {
      s' := s;
    } else {
      var s1 := ProducerGoes(c, o, s, g, t);
      s' := ProducerEnds(c, o, s1, g, t);
      OnlyTwice(s, s1, s', t);
    }
  }

  // ----- instances --------------------------------------------------------

  /** How far an instance is from its countdown, once a worker has taken it. */
  function ExecuteRank(st: Stage): nat {
    match st
    case Popped(_, inspect) => if inspect then 5 else 4
    case Executing(_, _, epc) => (match epc case Start => 3 case Body => 2 case Countdown => 1)
    case _ => 0
  }

  function TakenStep(e: Entry, st: Stage): Step {
    match st
    case Popped(_, inspect) => if inspect then Checks(e) else Claims(e)
    case Executing(_, _, epc) => ExecuteStep(e, epc)
    case _ => Checks(e)
  }

  lemma TakenCan(c: Config, s: State, e: Entry)
    requires At(s, e) && ExecuteRank(s.stage[e]) > 0
    ensures Can(c, s, TakenStep(e, s.stage[e]))
  {
    if s.stage[e].Popped? { PoppedCan(c, s, e); } else { ExecutingCan(c, s, e); }
  }

  /** The instance gets one step further, and past its countdown if that was next. */
  ghost predicate GoesOn(s: State, s': State, e: Entry) {
    && At(s, e) && At(s', e) && Resting(s, s', e.task)
    && ExecuteRank(s'.stage[e]) == ExecuteRank(s.stage[e]) - 1
    && s'.tasks[e.task].pending == s.tasks[e.task].pending - (if ExecuteRank(s.stage[e]) == 1 then {e.instance} else {})
  }

  lemma CheckGoes(s: State, s': State, e: Entry)
    requires CheckStep(s, s', e) && (s.tasks[e.task].state.Scheduled? || s.tasks[e.task].state.Running?)
    ensures GoesOn(s, s', e)
  {
  }

  lemma ClaimGoes(s: State, s': State, e: Entry)
    requires ClaimStep(s, s', e)
    ensures GoesOn(s, s', e)
  {
  }

  lemma StartGoes(s: State, s': State, e: Entry)
    requires StartStep(s, s', e)
    ensures GoesOn(s, s', e)
  {
  }

  lemma BodyGoes(s: State, s': State, e: Entry)
    requires BodyStep(s, s', e)
    ensures GoesOn(s, s', e)
  {
  }

  lemma CountdownGoes(s: State, s': State, e: Entry)
    requires CountdownStep(s, s', e)
    ensures GoesOn(s, s', e)
  {
  }

  lemma ExecuteEffects(c: Config, s: State, s': State, e: Entry)
    requires At(s, e) && ExecuteRank(s.stage[e]) > 0 && Next(c, s, s', TakenStep(e, s.stage[e]))
    requires s.stage[e].Popped? ==> s.tasks[e.task].state.Scheduled? || s.tasks[e.task].state.Running?
    ensures GoesOn(s, s', e)
  {
    match TakenStep(e, s.stage[e])
    case Checks(_) => CheckGoes(s, s', e);
    case Claims(_) => ClaimGoes(s, s', e);
    case Starts(_) => StartGoes(s, s', e);
    case ReturnsFrom(_) => BodyGoes(s, s', e);
    case CountsDown(_) => CountdownGoes(s, s', e);
  }

  lemma InstanceGoes(c: Config, o: State, s: State, g: nat, e: Entry) returns (s': State)
    requires Clean(c, o, s, g) && At(s, e) && ExecuteRank(s.stage[e]) > 0
    ensures Clean(c, o, s', g) && GoesOn(s, s', e)
  {
    assert Keeps(c, s, OfCounts);
    if s.stage[e].Popped? { LiveState(s.attrs[e.task], s.tasks[e.task], e.instance, s.stage[e]); }
    TakenCan(c, s, e);
    s' := Go(c, o, s, TakenStep(e, s.stage[e]), g);
    ExecuteEffects(c, s, s', e);
  }

  /** A taken instance gets past its countdown. */
  lemma InstanceEnds(c: Config, o: State, s: State, g: nat, e: Entry) returns (s': State)
    requires Clean(c, o, s, g) && At(s, e) && ExecuteRank(s.stage[e]) > 0
    ensures Clean(c, o, s', g) && Resting(s, s', e.task) && Exists(s', e.task)
    ensures s'.tasks[e.task].pending == s.tasks[e.task].pending - {e.instance}
    decreases ExecuteRank(s.stage[e])
  {
    s' := InstanceGoes(c, o, s, g, e);
    if ExecuteRank(s.stage[e]) > 1 {
      var s1 := s';
      s' := InstanceEnds(c, o, s1, g, e);
      RestingTwice(s, s1, s', e.task);
    }
  }

  /** Where a pending instance of a completely pushed task is. */
  lemma PendingStage(c: Config, s: State, t: nat, k: nat)
    requires Inv(c, s) && Exists(s, t) && Produced(s.attrs[t], s.tasks[t].producer)
    requires k in s.tasks[t].pending
    ensures At(s, Entry(t, k)) && (s.stage[Entry(t, k)].Queued? || ExecuteRank(s.stage[Entry(t, k)]) > 0)
  {
    assert Keeps(c, s, OfStages) && Keeps(c, s, OfCounts);
    assert TaskOk(s.attrs[t], s.tasks[t]);
    assert EntryOk(s.attrs[t], s.tasks[t], k, s.stage[Entry(t, k)]);
  }

  /** One pending instance gets past its countdown. */
  lemma PendingGoes(c: Config, o: State, s: State, g: nat, t: nat, k: nat) returns (s': State)
    requires Clean(c, o, s, g) && Awaited(s, g, t) && Produced(s.attrs[t], s.tasks[t].producer)
    requires k in s.tasks[t].pending
    ensures Clean(c, o, s', g) && Resting(s, s', t) && Awaited(s', g, t)
    ensures s'.tasks[t].pending == s.tasks[t].pending - {k}
  {
    var e, s1 := Entry(t, k), s;
    PendingStage(c, s, t, k);
    if s.stage[e].Queued? { s1 := PopUntil(c, o, s, g, t, e); }
    s' := InstanceEnds(c, o, s1, g, e);
    RestingTwice(s, s1, s', t);
    OnlyAwaited(s, s', g, t);
  }

  lemma PendingEnds(c: Config, o: State, s: State, g: nat, t: nat) returns (s': State)
    requires Clean(c, o, s, g) && Awaited(s, g, t) && Produced(s.attrs[t], s.tasks[t].producer)
    ensures Clean(c, o, s', g) && Resting(s, s', t) && Awaited(s', g, t) && s'.tasks[t].pending == {}
    decreases |s.tasks[t].pending|
  {
    if s.tasks[t].pending == {} {
      s' := s;
    } else {
      var k :| k in s.tasks[t].pending;
      var s1 := PendingGoes(c, o, s, g, t, k);
      s' := PendingEnds(c, o, s1, g, t);
      RestingTwice(s, s1, s', t);
    }
  }

  // ----- the last instance ------------------------------------------------

  /** How far the instance that finishes a task is from telling the group. */
  function FinishRank(st: Stage): nat {
    if !st.Settling? then 0 else
      match st.spc
      case Finish => 3
      case Release(_) => 2
      case Notify => 1
      case Report => 0
  }

  /** Instance `k` is finishing task `t`. */
  ghost predicate Finisher(s: State, g: nat, t: nat, k: nat) {
    && Awaited(s, g, t) && s.tasks[t].pending == {} && s.tasks[t].finisher == Some(k)
    && At(s, Entry(t, k)) && FinishRank(s.stage[Entry(t, k)]) > 0 && s.stage[Entry(t, k)].spc != Release(false)
  }

  lemma HasFinisher(c: Config, o: State, s: State, g: nat, t: nat) returns (k: nat)
    requires Clean(c, o, s, g) && !Stuck(c, o, g, t) && Awaited(s, g, t) && s.tasks[t].pending == {}
    ensures Finisher(s, g, t, k)
  {
    HasLimit(c, o, s, g, t);
    assert Keeps(c, s, OfCounts) && Keeps(c, s, OfStages);
    FinisherOf(c, s, g, t);
    k := s.tasks[t].finisher.value;
  }

  lemma FinisherOf(c: Config, s: State, g: nat, t: nat)
    requires Staged(s) && Counting(s) && Awaited(s, g, t) && s.tasks[t].pending == {} && s.attrs[t].instances > 0
    ensures s.tasks[t].finisher.Some? && Finisher(s, g, t, s.tasks[t].finisher.value)
  {
    var task := s.tasks[t];
    assert TaskOk(s.attrs[t], task);
    var e := Entry(t, task.finisher.value);
    assert EntryOk(s.attrs[t], task, e.instance, s.stage[e]);
  }

  function FinishStepOf(e: Entry, st: Stage): Step {
    if st.Settling? && st.spc.Finish? then Finishes(e)
    else if st.Settling? && st.spc.Release? then Releases(e)
    else Notifies(e)
  }

  lemma FinisherCan(c: Config, s: State, g: nat, t: nat, k: nat)
    requires Named(c, s) && Counting(s) && Finisher(s, g, t, k)
    ensures Can(c, s, FinishStepOf(Entry(t, k), s.stage[Entry(t, k)]))
  {
    SettlingCan(c, s, Entry(t, k));
  }

  lemma FinishGoes(s: State, s': State, g: nat, t: nat, k: nat)
    requires Finisher(s, g, t, k) && FinishStep(s, s', Entry(t, k))
    ensures Resting(s, s', t) && Finisher(s', g, t, k) && FinishRank(s'.stage[Entry(t, k)]) == 2
  {
  }

  lemma ReleaseGoes(s: State, s': State, g: nat, t: nat, k: nat)
    requires Finisher(s, g, t, k) && ReleaseStep(s, s', Entry(t, k))
    ensures Resting(s, s', t) && Finisher(s', g, t, k) && FinishRank(s'.stage[Entry(t, k)]) == 1
  {
  }

  lemma FinishEffects(c: Config, s: State, s': State, g: nat, t: nat, k: nat)
    requires Finisher(s, g, t, k) && FinishRank(s.stage[Entry(t, k)]) > 1
    requires Next(c, s, s', FinishStepOf(Entry(t, k), s.stage[Entry(t, k)]))
    ensures Resting(s, s', t) && Finisher(s', g, t, k)
    ensures FinishRank(s'.stage[Entry(t, k)]) < FinishRank(s.stage[Entry(t, k)])
  {
    if s.stage[Entry(t, k)].spc.Finish? { FinishGoes(s, s', g, t, k); } else { ReleaseGoes(s, s', g, t, k); }
  }

  /** Telling a group whose queue is empty puts the task into the queue. */
  lemma NotifyEffect(c: Config, s: State, s': State, g: nat, t: nat, k: nat)
    requires Finisher(s, g, t, k) && FinishRank(s.stage[Entry(t, k)]) == 1 && g in s.groups && s.groups[g].queue == []
    requires c.limit > 0
    requires Next(c, s, s', Notifies(Entry(t, k)))
    ensures g in s'.groups && s'.groups[g].queue == [t] && s'.groups[g].open == s.groups[g].open
    ensures s'.collectors == s.collectors
    ensures !Sticks(c, s, Notifies(Entry(t, k)), g)
  {
  }

  /** The group and its queue of finished tasks. */
  ghost predicate Idle(s: State, g: nat, open: set<nat>) {
    g in s.groups && s.groups[g].queue == [] && s.groups[g].open == open
  }

  ghost predicate Offering(s: State, g: nat, open: set<nat>) {
    g in s.groups && s.groups[g].queue != [] && s.groups[g].open == open
  }

  lemma FinisherEnds(c: Config, o: State, s: State, g: nat, t: nat, k: nat, open: set<nat>) returns (s': State)
    requires Clean(c, o, s, g) && !Stuck(c, o, g, t) && Finisher(s, g, t, k) && Idle(s, g, open)
    ensures Clean(c, o, s', g) && Offering(s', g, open) && s'.collectors == s.collectors
    decreases FinishRank(s.stage[Entry(t, k)])
  {
    assert Keeps(c, s, OfNames) && Keeps(c, s, OfCounts);
    FinisherCan(c, s, g, t, k);
    HasLimit(c, o, s, g, t);
    var e := Entry(t, k);
    if FinishRank(s.stage[e]) > 1 {
      var s1 := Go(c, o, s, FinishStepOf(e, s.stage[e]), g);
      FinishEffects(c, s, s1, g, t, k);
      s' := FinisherEnds(c, o, s1, g, t, k, open);
    } else {
      s' := Go(c, o, s, Notifies(e), g);
      NotifyEffect(c, s, s', g, t, k);
    }
  }

  /** An awaited task of a group whose queue is empty arrives in the queue. */
  lemma Arrives(c: Config, o: State, s: State, g: nat, t: nat, open: set<nat>) returns (s': State)
    requires Clean(c, o, s, g) && !Stuck(c, o, g, t) && Awaited(s, g, t) && Idle(s, g, open)
    ensures Clean(c, o, s', g) && Offering(s', g, open) && s'.collectors == s.collectors
  {
    var s1 := ProducerEnds(c, o, s, g, t);
    var s2 := PendingEnds(c, o, s1, g, t);
    var k := HasFinisher(c, o, s2, g, t);
    s' := FinisherEnds(c, o, s2, g, t, k, open);
  }

  // ----- collecting -------------------------------------------------------

  /** Call `j` is a wait_all for group `g`. */
  ghost predicate Waits(s: State, j: nat, g: nat) {
    j in s.collectors && s.collectors[j].all && s.collectors[j].group == g
  }

  ghost predicate WaitsFor(s: State, j: nat, g: nat, pc: CollectorPc) {
    Waits(s, j, g) && s.collectors[j].pc == pc
  }

  /** Only the calls change. */
  ghost predicate OnlyCalls(s: State, s': State) {
    s'.tasks == s.tasks && s'.attrs == s.attrs && s'.groups == s.groups
  }

  lemma Opening(c: Config, s: State, j: nat, g: nat) returns (s': State)
    requires g in s.groups && j !in s.collectors
    ensures Next(c, s, s', Opens(j, g, true)) && OnlyCalls(s, s') && WaitsFor(s', j, g, Load)
  {
    s' := s.(collectors := s.collectors[j := Collector(g, true, Load, [])]);
  }

  /** How far a call that is not busy is from reading the counter. */
  function ReadRank(pc: CollectorPc): nat {
    match pc case Load => 1 case Help => 2 case Take => 3 case _ => 0
  }

  function ReadStep(j: nat, pc: CollectorPc): Step {
    match pc case Load => Loads(j) case Help => Helps(j) case _ => Misses(j)
  }

  function AfterRead(pc: CollectorPc, zero: bool): CollectorPc {
    match pc case Load => (if zero then Returned else Take) case Help => Load case _ => Help
  }

  /** The call reads the counter, or gets closer to that. */
  lemma Reading(c: Config, s: State, j: nat, g: nat) returns (s': State)
    requires Waits(s, j, g) && g in s.groups && ReadRank(s.collectors[j].pc) > 0
    ensures Next(c, s, s', ReadStep(j, s.collectors[j].pc)) && OnlyCalls(s, s')
    ensures WaitsFor(s', j, g, AfterRead(s.collectors[j].pc, s.groups[g].numTasks == 0))
  {
    var pc := s.collectors[j].pc;
    s' := s.(collectors := s.collectors[j := s.collectors[j].(pc := AfterRead(pc, s.groups[g].numTasks == 0))]);
  }

  /** A call has got task `t` and has not discounted it yet. */
  ghost predicate InHand(s: State, g: nat, j: nat, t: nat) {
    && j in s.collectors && s.collectors[j].group == g && s.collectors[j].pc == Busy(t)
    && g in s.groups && Exists(s, t) && t in s.groups[g].open
    && (s.tasks[t].phase == Taken(j) || s.tasks[t].phase == Deleted(j))
  }

  lemma Taking(c: Config, s: State, j: nat, g: nat) returns (s': State)
    requires WaitsFor(s, j, g, Take) && g in s.groups && s.groups[g].queue != []
    requires Exists(s, s.groups[g].queue[0]) && s.groups[g].queue[0] in s.groups[g].open
    ensures Next(c, s, s', Takes(j)) && InHand(s', g, j, s.groups[g].queue[0]) && s'.groups[g].open == s.groups[g].open
  {
    var group, t := s.groups[g], s.groups[g].queue[0];
    s' := s.(groups := s.groups[g := group.(queue := group.queue[1..])],
             tasks := s.tasks[t := s.tasks[t].(phase := Taken(j))],
             collectors := s.collectors[j := s.collectors[j].(pc := Busy(t))]);
  }

  lemma Deleting(c: Config, s: State, g: nat, j: nat, t: nat) returns (s': State)
    requires InHand(s, g, j, t) && s.tasks[t].phase == Taken(j)
    ensures Next(c, s, s', Deletes(j)) && InHand(s', g, j, t) && s'.tasks[t].phase == Deleted(j)
    ensures s'.groups[g].open == s.groups[g].open && s'.collectors[j].all == s.collectors[j].all
  {
    var group, call := s.groups[g], s.collectors[j];
    s' := s.(slots := s.slots - {s.attrs[t].slot},
             groups := s.groups[g := group.(collected := group.collected + [t])],
             tasks := s.tasks[t := s.tasks[t].(state := Error, phase := Deleted(j))],
             collectors := s.collectors[j := call.(got := call.got + [t])]);
  }

  lemma Uncounting(c: Config, s: State, g: nat, j: nat, t: nat) returns (s': State)
    requires InHand(s, g, j, t) && s.tasks[t].phase == Deleted(j)
    ensures Next(c, s, s', Uncounts(j)) && g in s'.groups && s'.groups[g].open == s.groups[g].open - {t}
    ensures j in s'.collectors && s'.collectors[j].pc == if s.collectors[j].all then Take else Returned
  {
    var group, call := s.groups[g], s.collectors[j];
    s' := s.(groups := s.groups[g := group.(numTasks := group.numTasks - 1, open := group.open - {t})],
             tasks := s.tasks[t := s.tasks[t].(phase := Collected(j))],
             collectors := s.collectors[j := call.(pc := if call.all then Take else Returned)]);
  }

  /** A task in hand is deleted and discounted. */
  lemma HandEnds(c: Config, o: State, s: State, g: nat, j: nat, t: nat) returns (s': State)
    requires Clean(c, o, s, g) && InHand(s, g, j, t)
    ensures Clean(c, o, s', g) && g in s'.groups && s'.groups[g].open == s.groups[g].open - {t}
    ensures j in s'.collectors && s'.collectors[j].pc == if s.collectors[j].all then Take else Returned
  {
    var s1 := s;
    if s.tasks[t].phase == Taken(j) {
      s1 := Deleting(c, s, g, j, t);
      CleanNext(c, o, s, s1, Deletes(j), g);
    }
    s' := Uncounting(c, s1, g, j, t);
    CleanNext(c, o, s1, s', Uncounts(j), g);
  }

  /** The head of a group's queue is counted. */
  lemma HeadOpen(c: Config, o: State, s: State, g: nat, open: set<nat>)
    requires Clean(c, o, s, g) && Offering(s, g, open)
    ensures var t := s.groups[g].queue[0]; Exists(s, t) && t in open && s.groups[g].numTasks > 0
  {
    assert Keeps(c, s, OfGroups);
    HeadWaits(c, s, g);
    assert GroupOk(c.limit, s, g, s.groups[g]);
  }

  /** A new call takes the head of a group's queue. */
  lemma HeadTaken(c: Config, o: State, s: State, g: nat, open: set<nat>) returns (s': State, j: nat, t: nat)
    requires Clean(c, o, s, g) && Offering(s, g, open)
    ensures Clean(c, o, s', g) && InHand(s', g, j, t) && s'.groups[g].open == open
  {
    HeadOpen(c, o, s, g, open);
    j := FreshAbove(s.collectors.Keys);
    var s1 := Opening(c, s, j, g);
    CleanNext(c, o, s, s1, Opens(j, g, true), g);
    var s2 := Reading(c, s1, j, g);
    CleanNext(c, o, s1, s2, Loads(j), g);
    t := s.groups[g].queue[0];
    s' := Taking(c, s2, j, g);
    CleanNext(c, o, s2, s', Takes(j), g);
  }

  // ----- the whole group --------------------------------------------------

  /** What the counted tasks of a group without stuck ones are up to. */
  lemma OpenTask(c: Config, s: State, g: nat, t: nat)
    requires Inv(c, s) && !Stuck(c, s, g, t)
    requires g in s.groups && s.groups[g].queue == [] && t in s.groups[g].open
    ensures Awaited(s, g, t) || exists j :: InHand(s, g, j, t)
  {
    InvValid(c, s);
    assert Keeps(c, s, OfGroups) && Keeps(c, s, OfCalls);
    var p := PhaseIn(s, g, t);
    assert GroupOk(c.limit, s, g, s.groups[g]) && TakenOk(s, g, t, p);
    if p.Taken? || p.Deleted? { assert InHand(s, g, p.collector, t); }
  }

  /** One counted task fewer. */
  lemma OneFewer(c: Config, o: State, s: State, g: nat) returns (s': State)
    requires Clean(c, o, s, g) && NoneStuck(c, o, g) && g in s.groups && s.groups[g].open != {}
    ensures Clean(c, o, s', g) && g in s'.groups && s'.groups[g].open < s.groups[g].open
  {
    var open := s.groups[g].open;
    var t :| t in open;
    if s.groups[g].queue != [] {
      s' := HeadGone(c, o, s, g, open);
    } else {
      assert !Stuck(c, o, g, t);
      OpenTask(c, s, g, t);
      if j :| InHand(s, g, j, t) {
        s' := HandEnds(c, o, s, g, j, t);
      } else {
        var s1 := Arrives(c, o, s, g, t, open);
        s' := HeadGone(c, o, s1, g, open);
      }
    }
  }

  lemma HeadGone(c: Config, o: State, s: State, g: nat, open: set<nat>) returns (s': State)
    requires Clean(c, o, s, g) && Offering(s, g, open)
    ensures Clean(c, o, s', g) && g in s'.groups && s'.groups[g].open < open
  {
    var s1, j, t := HeadTaken(c, o, s, g, open);
    s' := HandEnds(c, o, s1, g, j, t);
  }

  lemma Drain(c: Config, o: State, s: State, g: nat) returns (s': State)
    requires Clean(c, o, s, g) && NoneStuck(c, o, g) && g in s.groups
    ensures Clean(c, o, s', g) && g in s'.groups && s'.groups[g].open == {}
    decreases |s.groups[g].open|
  {
    if s.groups[g].open == {} {
      s' := s;
    } else {
      var s1 := OneFewer(c, o, s, g);
      SmallerOpen(s.groups[g].open, s1.groups[g].open);
      s' := Drain(c, o, s1, g);
    }
  }

  lemma SmallerOpen(a: set<nat>, b: set<nat>)
    requires b < a
    ensures |b| < |a|
  {
    assert a == b + (a - b) && a - b != {};
  }

  // ----- what a path keeps ------------------------------------------------

  lemma WaitsAt(c: Config, path: seq<State>, k: nat, j: nat, g: nat)
    requires Path(c, path) && 0 < k < |path| && Inv(c, path[k - 1]) && Waits(path[k - 1], j, g)
    ensures Waits(path[k], j, g)
  {
    assert StepAt(c, path, k);
    var s, s' := path[k - 1], path[k];
    var step :| Next(c, s, s', step);
    assert Keeps(c, s, OfCalls);
    assert CollectorOk(s, j, s.collectors[j]);
    ReturnsAtZero(c, s, s', step, j);
  }

  lemma {:induction false} WaitsAlong(c: Config, path: seq<State>, k: nat, j: nat, g: nat)
    requires Path(c, path) && k < |path| && Inv(c, path[0]) && Waits(path[0], j, g)
    ensures Waits(path[k], j, g)
  {
    if k > 0 {
      WaitsAlong(c, path, k - 1, j, g);
      SafeAlong(c, path, 0, k - 1);
      WaitsAt(c, path, k, j, g);
    }
  }

  /** A stuck task is counted in every state that can be reached. */
  lemma StuckLater(c: Config, o: State, s: State, g: nat, t: nat)
    requires Inv(c, o) && From(c, o, s) && Stuck(c, o, g, t)
    ensures Inv(c, s) && Stuck(c, s, g, t)
  {
    var path :| Path(c, path) && path[0] == o && path[|path| - 1] == s;
    SafeAlong(c, path, 0, |path| - 1);
    StuckAlong(c, path, 0, |path| - 1, g, t);
  }

  // ----- the counter at zero ----------------------------------------------

  /** From state `o` the counter of the group can be brought to zero. */
  ghost predicate CanDrain(c: Config, o: State, g: nat) {
    exists s :: From(c, o, s) && g in s.groups && s.groups[g].numTasks == 0
  }

  lemma DrainsTo(c: Config, o: State, g: nat) returns (s: State)
    requires Inv(c, o) && g in o.groups && NoneStuck(c, o, g)
    ensures Clean(c, o, s, g) && g in s.groups && s.groups[g].numTasks == 0
  {
    CleanHere(c, o, g);
    s := Drain(c, o, o, g);
    assert Keeps(c, s, OfGroups);
    assert GroupOk(c.limit, s, g, s.groups[g]);
  }

  lemma StuckNeverDrains(c: Config, o: State, s: State, g: nat, t: nat)
    requires Inv(c, o) && Stuck(c, o, g, t) && From(c, o, s) && g in s.groups
    ensures s.groups[g].numTasks > 0
  {
    StuckLater(c, o, s, g, t);
    assert Keeps(c, s, OfStages) && Keeps(c, s, OfCounts) && Keeps(c, s, OfGroups);
    StuckOpen(c, s, g, t);
  }

  /** In every state of every run, a group's counter can still reach zero if and only if
      none of its tasks is stuck. */
  lemma DrainsIff(c: Config, run: seq<State>, i: nat, g: nat)
    requires Run(c, run) && i < |run| && g in run[i].groups
    ensures CanDrain(c, run[i], g) <==> NoneStuck(c, run[i], g)
  {
    RunSafe(c, run, i);
    if NoneStuck(c, run[i], g) {
      var s := DrainsTo(c, run[i], g);
    } else {
      var t :| Stuck(c, run[i], g, t);
      forall s | From(c, run[i], s) && g in s.groups ensures s.groups[g].numTasks > 0 {
        StuckNeverDrains(c, run[i], s, g, t);
      }
    }
  }

  // ----- waiting for all --------------------------------------------------

  /** From state `o` call `j` can get to its return. */
  ghost predicate CanReturn(c: Config, o: State, j: nat) {
    exists s :: From(c, o, s) && j in s.collectors && s.collectors[j].pc.Returned?
  }

  /** With the counter at zero no call of the group has a task in hand. */
  lemma NotBusy(c: Config, s: State, j: nat, g: nat)
    requires Inv(c, s) && Waits(s, j, g) && g in s.groups && s.groups[g].numTasks == 0
    ensures !s.collectors[j].pc.Busy?
  {
    assert Keeps(c, s, OfGroups) && Keeps(c, s, OfCalls);
    assert CollectorOk(s, j, s.collectors[j]) && GroupOk(c.limit, s, g, s.groups[g]);
    assert s.groups[g].open == {};
  }

  lemma Returns(c: Config, o: State, s: State, j: nat, g: nat)
    requires Clean(c, o, s, g) && Waits(s, j, g) && g in s.groups && s.groups[g].numTasks == 0
    ensures CanReturn(c, o, j)
    decreases ReadRank(s.collectors[j].pc)
  {
    NotBusy(c, s, j, g);
    if !s.collectors[j].pc.Returned? {
      var s' := Reading(c, s, j, g);
      CleanNext(c, o, s, s', ReadStep(j, s.collectors[j].pc), g);
      Returns(c, o, s', j, g);
    }
  }

  lemma WaitsReturns(c: Config, o: State, j: nat, g: nat)
    requires Inv(c, o) && Waits(o, j, g) && g in o.groups && NoneStuck(c, o, g)
    ensures CanReturn(c, o, j)
  {
    var s := DrainsTo(c, o, g);
    var path :| Path(c, path) && path[0] == o && path[|path| - 1] == s;
    WaitsAlong(c, path, |path| - 1, j, g);
    Returns(c, o, s, j, g);
  }

  lemma StuckHolds(c: Config, s: State, j: nat, g: nat, t: nat)
    requires Inv(c, s) && CallOk(s, j, g, t) && Stuck(c, s, g, t)
    ensures !s.collectors[j].pc.Returned?
  {
    assert Keeps(c, s, OfStages) && Keeps(c, s, OfCounts);
    StuckCounted(c, s, g, t);
  }

  lemma StuckNeverReturns(c: Config, o: State, s: State, j: nat, g: nat, t: nat)
    requires Inv(c, o) && From(c, o, s) && Waits(o, j, g) && !o.collectors[j].pc.Returned? && Stuck(c, o, g, t)
    ensures j in s.collectors && !s.collectors[j].pc.Returned?
  {
    StuckLater(c, o, s, g, t);
    var path :| Path(c, path) && path[0] == o && path[|path| - 1] == s;
    CallAlong(c, path, 0, |path| - 1, j, g, t);
    StuckHolds(c, s, j, g, t);
  }

  /** In every state of every run, an open wait_all call can still return if and only if no
      task of its group is stuck. */
  lemma WaitAllReturnsIff(c: Config, run: seq<State>, i: nat, j: nat)
    requires Run(c, run) && i < |run| && j in run[i].collectors
    requires run[i].collectors[j].all && !run[i].collectors[j].pc.Returned?
    ensures CanReturn(c, run[i], j) <==> NoneStuck(c, run[i], run[i].collectors[j].group)
  {
    var o, g := run[i], run[i].collectors[j].group;
    RunSafe(c, run, i);
    assert Keeps(c, o, OfCalls);
    assert CollectorOk(o, j, o.collectors[j]);
    if NoneStuck(c, o, g) {
      WaitsReturns(c, o, j, g);
    } else {
      var t :| Stuck(c, o, g, t);
      forall s | From(c, o, s) ensures !(j in s.collectors && s.collectors[j].pc.Returned?) {
        StuckNeverReturns(c, o, s, j, g, t);
      }
    }
  }

  // ----- waiting for any --------------------------------------------------

  /** From state `o` call `j` can get to its return without a further task joining the
      group. */
  ghost predicate CanReturnAlone(c: Config, o: State, j: nat, g: nat) {
    exists s :: From(c, o, s) && NoneJoins(o, s, g) && j in s.collectors && s.collectors[j].pc.Returned?
  }

  /** Call `j` waits for any task of group `g`, and tries the group's queue or helps out. */
  ghost predicate Tries(s: State, j: nat, g: nat) {
    && j in s.collectors && !s.collectors[j].all && s.collectors[j].group == g && g in s.groups
    && (s.collectors[j].pc.Take? || s.collectors[j].pc.Help?)
  }

  /** With the task in hand it returns. */
  lemma HandReturns(c: Config, o: State, s: State, j: nat, g: nat, t: nat)
    requires Clean(c, o, s, g) && InHand(s, g, j, t) && !s.collectors[j].all
    ensures CanReturnAlone(c, o, j, g)
  {
    var s' := HandEnds(c, o, s, g, j, t);
  }

  lemma TryingAgain(c: Config, s: State, j: nat, g: nat) returns (s': State)
    requires Tries(s, j, g) && s.collectors[j].pc.Help?
    ensures Next(c, s, s', Helps(j)) && OnlyCalls(s, s') && Tries(s', j, g) && s'.collectors[j].pc.Take?
  {
    s' := s.(collectors := s.collectors[j := s.collectors[j].(pc := Take)]);
  }

  lemma TakingOne(c: Config, s: State, j: nat, g: nat) returns (s': State)
    requires Tries(s, j, g) && s.collectors[j].pc.Take? && s.groups[g].queue != []
    requires Exists(s, s.groups[g].queue[0]) && s.groups[g].queue[0] in s.groups[g].open
    ensures Next(c, s, s', Takes(j)) && InHand(s', g, j, s.groups[g].queue[0]) && !s'.collectors[j].all
  {
    var group, t := s.groups[g], s.groups[g].queue[0];
    s' := s.(groups := s.groups[g := group.(queue := group.queue[1..])],
             tasks := s.tasks[t := s.tasks[t].(phase := Taken(j))],
             collectors := s.collectors[j := s.collectors[j].(pc := Busy(t))]);
  }

  /** With a task in the queue the call can get it. */
  lemma QueueReturns(c: Config, o: State, s: State, j: nat, g: nat, open: set<nat>)
    requires Clean(c, o, s, g) && Tries(s, j, g) && Offering(s, g, open)
    ensures CanReturnAlone(c, o, j, g)
  {
    HeadOpen(c, o, s, g, open);
    var s1 := s;
    if s.collectors[j].pc.Help? {
      s1 := TryingAgain(c, s, j, g);
      CleanNext(c, o, s, s1, Helps(j), g);
    }
    var t := s1.groups[g].queue[0];
    var s2 := TakingOne(c, s1, j, g);
    CleanNext(c, o, s1, s2, Takes(j), g);
    HandReturns(c, o, s2, j, g, t);
  }

  /** A task that is left for the call arrives in the queue, if it is not there. */
  lemma LeftReturns(c: Config, o: State, j: nat, g: nat, t: nat)
    requires Inv(c, o) && Tries(o, j, g) && !Unavailable(c, o, g, j, t)
    ensures CanReturnAlone(c, o, j, g)
  {
    CleanHere(c, o, g);
    var open := o.groups[g].open;
    assert Keeps(c, o, OfGroups) && Keeps(c, o, OfCalls);
    assert GroupOk(c.limit, o, g, o.groups[g]) && TakenOk(o, g, t, PhaseIn(o, g, t));
    InvValid(c, o);
    if o.groups[g].queue != [] {
      QueueReturns(c, o, o, j, g, open);
    } else {
      var s := Arrives(c, o, o, g, t, open);
      QueueReturns(c, o, s, j, g, open);
    }
  }

  /** A call that has a task in hand. */
  lemma BusyReturns(c: Config, o: State, j: nat)
    requires Inv(c, o) && j in o.collectors && !o.collectors[j].all && o.collectors[j].pc.Busy?
    ensures var g, t := o.collectors[j].group, o.collectors[j].pc.task;
            CanReturnAlone(c, o, j, g) && !Unavailable(c, o, g, j, t)
  {
    var g, t := o.collectors[j].group, o.collectors[j].pc.task;
    assert Keeps(c, o, OfGroups) && Keeps(c, o, OfCalls) && Keeps(c, o, OfStages) && Keeps(c, o, OfCounts);
    BusyHand(c, o, j);
    CleanHere(c, o, g);
    HandReturns(c, o, o, j, g, t);
  }

  lemma BusyHand(c: Config, s: State, j: nat)
    requires Staged(s) && Counting(s) && Grouped(c, s) && Collecting(s) && j in s.collectors
    requires s.collectors[j].pc.Busy?
    ensures var g, t := s.collectors[j].group, s.collectors[j].pc.task;
            InHand(s, g, j, t) && !Unavailable(c, s, g, j, t)
  {
    var g, t := s.collectors[j].group, s.collectors[j].pc.task;
    assert CollectorOk(s, j, s.collectors[j]) && GroupOk(c.limit, s, g, s.groups[g]);
    if Stuck(c, s, g, t) { StuckCounted(c, s, g, t); }
  }

  lemma StarvedNeverReturns(c: Config, o: State, s: State, j: nat, g: nat)
    requires Inv(c, o) && Starves(c, o, j, g) && From(c, o, s) && NoneJoins(o, s, g)
    ensures j in s.collectors && !s.collectors[j].pc.Returned?
  {
    var path :| Path(c, path) && path[0] == o && path[|path| - 1] == s;
    StarvesAlong(c, path, 0, |path| - 1, j, g);
  }

  /** In every state of every run, a wait_any call that has seen the counter above zero can
      return without a further task joining the group if and only if some task is left for
      it: waiting in the queue, unfinished and not stuck, or already taken by this call. */
  lemma WaitAnyReturnsIff(c: Config, run: seq<State>, i: nat, j: nat)
    requires Run(c, run) && i < |run| && j in run[i].collectors && !run[i].collectors[j].all
    requires !run[i].collectors[j].pc.Load? && !run[i].collectors[j].pc.Returned?
    ensures var g := run[i].collectors[j].group;
            CanReturnAlone(c, run[i], j, g) <==> !NothingLeft(c, run[i], g, j)
  {
    var o, g := run[i], run[i].collectors[j].group;
    RunSafe(c, run, i);
    assert Keeps(c, o, OfCalls);
    assert CollectorOk(o, j, o.collectors[j]);
    if o.collectors[j].pc.Busy? {
      BusyReturns(c, o, j);
    } else if t :| !Unavailable(c, o, g, j, t) {
      LeftReturns(c, o, j, g, t);
    } else {
      forall s | From(c, o, s) && NoneJoins(o, s, g) ensures !(j in s.collectors && s.collectors[j].pc.Returned?) {
        StarvedNeverReturns(c, o, s, j, g);
      }
    }
  }
}
