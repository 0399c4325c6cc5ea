/** How the instances of tasks are spread over the workers. */
module RuntimeSpread {
  import opened Common
  import opened Affinity
  import opened Runtime
  import opened RuntimeInvariants
  import opened RuntimePlacement
  import opened RuntimeSafety

  type Log = seq<(QueueId, Entry)>

  /** The pushes of one task, in their order. */
  function PushesOf(log: Log, t: nat): Log {
    if log == [] then [] else
      var last := log[|log| - 1];
      PushesOf(log[..|log| - 1], t) + (if last.1.task == t then [last] else [])
  }

  lemma PushesAppend(log: Log, q: QueueId, e: Entry, t: nat)
    ensures PushesOf(log + [(q, e)], t) == PushesOf(log, t) + (if e.task == t then [(q, e)] else [])
  {
    assert (log + [(q, e)])[..|log|] == log;
  }

  /** How many instances the producer has pushed. */
  function Pushed(attr: Attributes, pc: ProducerPc): nat {
    match pc
    case Count(k) => k
    case Aim(k) => k
    case Push(k, _) => k
    case Started => attr.instances
    case _ => 0
  }

  /** The public queue for instance `k` of a task that may run anywhere. */
  function Home(c: Config, attr: Attributes, k: nat): QueueId
    requires c.Valid()
  {
    Public((attr.slot + k) % c.workers, attr.priority)
  }

  /** The pushes of a task so far, and the one that is due. */
  ghost predicate SpreadOk(c: Config, attr: Attributes, pc: ProducerPc, mine: Log)
    requires c.Valid()
  {
    && |mine| == Pushed(attr, pc)
    && (forall k :: 0 <= k < |mine| ==> mine[k].1.instance == k)
    && (!Restricted(c, attr) ==> forall k :: 0 <= k < |mine| ==> mine[k].0 == Home(c, attr, k))
    && (!Restricted(c, attr) && pc.Push? ==> pc.queue == Home(c, attr, pc.k))
  }

  ghost predicate Spread(c: Config, s: State) {
    c.Valid() && forall t :: Exists(s, t) ==> SpreadOk(c, s.attrs[t], s.tasks[t].producer, PushesOf(s.pushes, t))
  }

  /** Only the producer of `t` moves. */
  ghost predicate ProducerOnly(s: State, s': State, t: nat) {
    && s'.attrs == s.attrs && Exists(s, t) && t in s'.tasks
    && forall u :: u in s'.tasks && u != t ==> u in s.tasks && s'.tasks[u].producer == s.tasks[u].producer
  }

  lemma SpreadByLoop(c: Config, s: State, s': State, t: nat)
    requires Spread(c, s) && ProducerOnly(s, s', t) && s'.pushes == s.pushes
    requires Pushed(s.attrs[t], s'.tasks[t].producer) == Pushed(s.attrs[t], s.tasks[t].producer)
    requires s'.tasks[t].producer.Push? && !Restricted(c, s.attrs[t]) ==>
               s'.tasks[t].producer.queue == Home(c, s.attrs[t], s'.tasks[t].producer.k)
    ensures Spread(c, s')
  {
    forall u | Exists(s', u) ensures SpreadOk(c, s'.attrs[u], s'.tasks[u].producer, PushesOf(s'.pushes, u)) {
      assert SpreadOk(c, s.attrs[u], s.tasks[u].producer, PushesOf(s.pushes, u));
    }
  }

  lemma SpreadOn(c: Config, attr: Attributes, q: QueueId, e: Entry, mine: Log)
    requires c.Valid() && SpreadOk(c, attr, Push(e.instance, q), mine)
    ensures SpreadOk(c, attr, Count(e.instance + 1), mine + [(q, e)])
  {
  }

  lemma PushGrows(c: Config, s: State, s': State, t: nat)
    requires PushStep(c, s, s', t)
    ensures ProducerOnly(s, s', t)
    ensures var e := Entry(t, s.tasks[t].producer.k); var q := s.tasks[t].producer.queue;
            s'.tasks[t].producer == Count(e.instance + 1) && s'.pushes == s.pushes + [(q, e)]
  {
  }

  lemma SpreadByPush(c: Config, s: State, s': State, t: nat)
    requires Spread(c, s) && PushStep(c, s, s', t)
    ensures Spread(c, s')
  {
    var q, e := s.tasks[t].producer.queue, Entry(t, s.tasks[t].producer.k);
    PushGrows(c, s, s', t);
    forall u | Exists(s', u) ensures SpreadOk(c, s'.attrs[u], s'.tasks[u].producer, PushesOf(s'.pushes, u)) {
      assert SpreadOk(c, s.attrs[u], s.tasks[u].producer, PushesOf(s.pushes, u));
      PushesAppend(s.pushes, q, e, u);
      if u == t { SpreadOn(c, s.attrs[t], q, e, PushesOf(s.pushes, t)); }
    }
  }

  lemma SpreadByAim(c: Config, s: State, s': State, t: nat, q: QueueId)
    requires Spread(c, s) && AimStep(c, s, s', t, q)
    ensures Spread(c, s')
  {
    SpreadByLoop(c, s, s', t);
  }

  /** A producer that is neither aiming nor pushing has pushed as many instances as before. */
  lemma OtherMoves(c: Config, s: State, s': State, step: Step)
    requires ProducerMoves(c, s, s', step) && !step.Pushes? && !step.Aims?
    requires ProducerOk(s.attrs[step.t], s.tasks[step.t])
    ensures step.t in s'.tasks && !s'.tasks[step.t].producer.Push?
    ensures Pushed(s.attrs[step.t], s'.tasks[step.t].producer) == Pushed(s.attrs[step.t], s.tasks[step.t].producer)
  {
    match step
    case Joins(t) => JoinEffect(s, s', t);
    case _ =>
  }

  lemma SpreadByProducer(c: Config, s: State, s': State, step: Step)
    requires Counting(s) && Spread(c, s) && ProducerMoves(c, s, s', step)
    ensures Spread(c, s')
  {
    if step.Pushes? {
      SpreadByPush(c, s, s', step.t);
    } else if step.Aims? {
      SpreadByAim(c, s, s', step.t, step.q);
    } else {
      assert TaskOk(s.attrs[step.t], s.tasks[step.t]);
      TasksByProducer(c, s, s', step);
      LogsUntouched(c, s, s', step);
      OtherMoves(c, s, s', step);
      SpreadByLoop(c, s, s', step.t);
    }
  }

  /** Nothing but the rest of the tasks' records changes. */
  ghost predicate ProducersSame(s: State, s': State) {
    && s'.attrs == s.attrs && s'.pushes == s.pushes
    && forall u :: u in s'.tasks ==> u in s.tasks && s'.tasks[u].producer == s.tasks[u].producer
  }

  lemma SpreadSame(c: Config, s: State, s': State)
    requires Spread(c, s) && ProducersSame(s, s')
    ensures Spread(c, s')
  {
    forall u | Exists(s', u) ensures SpreadOk(c, s'.attrs[u], s'.tasks[u].producer, PushesOf(s'.pushes, u)) {
      assert SpreadOk(c, s.attrs[u], s.tasks[u].producer, PushesOf(s.pushes, u));
    }
  }

  lemma SpreadByExecutor(c: Config, s: State, s': State, step: Step)
    requires Spread(c, s) && ExecutorMoves(c, s, s', step)
    ensures Spread(c, s')
  {
    ExecutorEffect(c, s, s', step);
    LogsUntouched(c, s, s', step);
    SpreadSame(c, s, s');
  }

  lemma SpreadByCollector(c: Config, s: State, s': State, step: Step)
    requires Spread(c, s) && CollectorMoves(s, s', step)
    ensures Spread(c, s')
  {
    CollectorLeaves(s, s', step);
    assert ProducersSame(s, s');
    SpreadSame(c, s, s');
  }

  lemma {:induction false} NoPushes(log: Log, t: nat)
    requires forall i {:trigger log[i]} :: 0 <= i < |log| ==> log[i].1.task != t
    ensures PushesOf(log, t) == []
  {
    if log != [] { NoPushes(log[..|log| - 1], t); }
  }

  lemma SpreadByCreation(c: Config, s: State, s': State, t: nat, attr: Attributes)
    requires Spread(c, s) && LogSuits(c, s.attrs, s.pushes) && CreateStep(c, s, s', t, attr)
    ensures Spread(c, s')
  {
    NoPushes(s.pushes, t);
    forall u | Exists(s', u) ensures SpreadOk(c, s'.attrs[u], s'.tasks[u].producer, PushesOf(s'.pushes, u)) {
      if u != t { assert SpreadOk(c, s.attrs[u], s.tasks[u].producer, PushesOf(s.pushes, u)); }
    }
  }

  lemma SpreadKept(c: Config, s: State, s': State)
    requires Inv(c, s) && Spread(c, s) && Moves(c, s, s')
    ensures Spread(c, s')
  {
    var step :| Next(c, s, s', step);
    assert Keeps(c, s, OfCounts) && Keeps(c, s, OfSuits);
    if ProducerMoves(c, s, s', step) { SpreadByProducer(c, s, s', step); }
    else if ExecutorMoves(c, s, s', step) { SpreadByExecutor(c, s, s', step); }
    else if CollectorMoves(s, s', step) { SpreadByCollector(c, s, s', step); }
    else if step.CreateTask? { SpreadByCreation(c, s, s', step.t, step.attr); }
    else { SpreadSame(c, s, s'); }
  }

  lemma {:induction false} SpreadAt(c: Config, run: seq<State>, i: nat)
    requires Run(c, run) && i < |run|
    ensures Spread(c, run[i])
  {
    if i > 0 {
      SpreadAt(c, run, i - 1);
      RunSafe(c, run, i - 1);
      assert StepAt(c, run, i);
      SpreadKept(c, run[i - 1], run[i]);
    }
  }

  // ----- round robin ------------------------------------------------------

  lemma Apart(slot: nat, k: nat, l: nat, workers: nat)
    requires workers > 0 && k < l < k + workers
    ensures (slot + k) % workers != (slot + l) % workers
  {
    AroundIs(slot + k, l - k, workers);
  }

  /** Where the pushes of a task that may run anywhere go. */
  ghost predicate Robin(workers: nat, attr: Attributes, mine: Log)
    requires workers > 0
  {
    && (forall k :: 0 <= k < |mine| ==> mine[k].0.Public? && mine[k].0.priority == attr.priority)
    && (|mine| > 0 ==> mine[0].0.worker == attr.slot % workers)
    && (forall k :: 0 < k < |mine| ==>
          mine[k].0.worker == if mine[k - 1].0.worker + 1 == workers then 0 else mine[k - 1].0.worker + 1)
  }

  lemma RobinOf(c: Config, attr: Attributes, pc: ProducerPc, mine: Log)
    requires c.Valid() && SpreadOk(c, attr, pc, mine) && !Restricted(c, attr)
    ensures Robin(c.workers, attr, mine)
  {
    forall k | 0 < k < |mine|
      ensures mine[k].0.worker == if mine[k - 1].0.worker + 1 == c.workers then 0 else mine[k - 1].0.worker + 1
    {
      StepMod(attr.slot + k - 1, c.workers);
      assert mine[k].0 == Home(c, attr, k) && mine[k - 1].0 == Home(c, attr, k - 1);
    }
  }

  lemma SpreadOf(c: Config, run: seq<State>, i: nat, t: nat)
    requires Run(c, run) && i < |run| && t in run[i].tasks
    ensures c.Valid() && t in run[i].attrs
    ensures SpreadOk(c, run[i].attrs[t], run[i].tasks[t].producer, PushesOf(run[i].pushes, t))
  {
    RunSafe(c, run, i);
    assert Keeps(c, run[i], OfStages);
    assert t in run[i].attrs.Keys;
    SpreadAt(c, run, i);
  }

  /** The instances of a task are pushed in their order, each once, and all of them when the
      start has succeeded. If the task may run anywhere they go to public queues of its
      priority, the first one to the worker that its slot selects and each further one to
      the next worker. */
  lemma RoundRobin(c: Config, run: seq<State>, i: nat, t: nat)
    requires Run(c, run) && i < |run| && t in run[i].tasks
    ensures c.Valid() && t in run[i].attrs
    ensures var attr := run[i].attrs[t]; var mine := PushesOf(run[i].pushes, t);
            && (run[i].tasks[t].producer.Started? ==> |mine| == attr.instances)
            && (forall k :: 0 <= k < |mine| ==> mine[k].1.instance == k)
            && (MaskOf(c, attr) == AllCores(c.workers) ==> Robin(c.workers, attr, mine))
  {
    SpreadOf(c, run, i, t);
    var attr, mine := run[i].attrs[t], PushesOf(run[i].pushes, t);
    if !Restricted(c, attr) { RobinOf(c, attr, run[i].tasks[t].producer, mine); }
  }

  /** As many successive instances as there are workers, or fewer, go to different workers. */
  lemma DifferentWorkers(c: Config, run: seq<State>, i: nat, t: nat, k: nat, l: nat)
    requires Run(c, run) && i < |run| && t in run[i].tasks && k < l < k + c.workers
    requires c.Valid() && t in run[i].attrs && MaskOf(c, run[i].attrs[t]) == AllCores(c.workers)
    requires l < |PushesOf(run[i].pushes, t)|
    ensures PushesOf(run[i].pushes, t)[k].0.worker != PushesOf(run[i].pushes, t)[l].0.worker
  {
    SpreadOf(c, run, i, t);
    Apart(run[i].attrs[t].slot, k, l, c.workers);
  }

  // ----- the counter of affine tasks --------------------------------------

  /** A queue is chosen for an instance of a task that may not run anywhere. */
  ghost predicate Affine(c: Config, s: State, s': State)
    requires c.Valid()
  {
    exists t, q :: AimStep(c, s, s', t, q) && Restricted(c, s.attrs[t])
  }

  /** How often that has happened before state `i`. */
  ghost function AffineAims(c: Config, run: seq<State>, i: nat): nat
    requires c.Valid() && i < |run|
  {
    if i == 0 then 0 else AffineAims(c, run, i - 1) + (if Affine(c, run[i - 1], run[i]) then 1 else 0)
  }

  lemma CounterByJoin(s: State, s': State, t: nat)
    requires JoinStep(s, s', t)
    ensures s'.counter == s.counter
  {
  }

  lemma CounterByStart(c: Config, s: State, s': State, step: Step)
    requires ProducerMoves(c, s, s', step) && PlainStart(step)
    ensures s'.counter == s.counter
  {
    if step.Joins? { CounterByJoin(s, s', step.t); }
  }

  lemma CounterByLoop(c: Config, s: State, s': State, step: Step)
    requires ProducerMoves(c, s, s', step) && (step.Counts? || step.Pushes? || step.FindsFull?)
    ensures s'.counter == s.counter
  {
  }

  lemma CounterByProducer(c: Config, s: State, s': State, step: Step)
    requires ProducerMoves(c, s, s', step) && !step.Aims?
    ensures s'.counter == s.counter
  {
    if PlainStart(step) { CounterByStart(c, s, s', step); }
    else if step.Counts? || step.Pushes? || step.FindsFull? { CounterByLoop(c, s, s', step); }
  }

  lemma CounterByExecutor(c: Config, s: State, s': State, step: Step)
    requires ExecutorMoves(c, s, s', step)
    ensures s'.counter == s.counter
  {
  }

  lemma CounterByCollector(s: State, s': State, step: Step)
    requires CollectorMoves(s, s', step)
    ensures s'.counter == s.counter
  {
  }

  lemma CounterByStep(c: Config, s: State, s': State, step: Step)
    requires c.Valid() && Next(c, s, s', step) && !(step.Aims? && Restricted(c, s.attrs[step.t]))
    ensures s'.counter == s.counter
  {
    if ProducerMoves(c, s, s', step) {
      if !step.Aims? { CounterByProducer(c, s, s', step); }
    }
    else if ExecutorMoves(c, s, s', step) { CounterByExecutor(c, s, s', step); }
    else if CollectorMoves(s, s', step) { CounterByCollector(s, s', step); }
  }

  lemma CounterByAim(c: Config, s: State, s': State, t: nat, q: QueueId)
    requires c.Valid() && AimStep(c, s, s', t, q) && Restricted(c, s.attrs[t])
    ensures s'.counter == (s.counter + 1) % UINT_RANGE
  {
  }

  /** The counter after one more choice, or none. */
  function Bumped(counter: nat, chosen: bool): nat {
    if chosen then (counter + 1) % UINT_RANGE else counter
  }

  lemma BumpedIs(n: nat, chosen: bool)
    ensures Bumped(n % UINT_RANGE, chosen) == (n + (if chosen then 1 else 0)) % UINT_RANGE
  {
  }

  lemma AimsAffine(c: Config, s: State, s': State, step: Step)
    requires c.Valid() && Next(c, s, s', step) && step.Aims?
    ensures Restricted(c, s.attrs[step.t]) ==> Affine(c, s, s')
  {
    assert AimStep(c, s, s', step.t, step.q);
  }

  lemma CounterStays(c: Config, s: State, s': State, step: Step)
    requires c.Valid() && Next(c, s, s', step) && !Affine(c, s, s')
    ensures s'.counter == s.counter
  {
    if step.Aims? { AimsAffine(c, s, s', step); }
    CounterByStep(c, s, s', step);
  }

  lemma CounterMoves(c: Config, s: State, s': State)
    requires c.Valid() && Moves(c, s, s')
    ensures s'.counter == Bumped(s.counter, Affine(c, s, s'))
  {
    if Affine(c, s, s') {
      var t, q :| AimStep(c, s, s', t, q) && Restricted(c, s.attrs[t]);
      CounterByAim(c, s, s', t, q);
    } else {
      var step :| Next(c, s, s', step);
      CounterStays(c, s, s', step);
    }
  }

  /** The shared counter counts these choices, in 32 bits. */
  lemma {:induction false} CounterCounts(c: Config, run: seq<State>, i: nat)
    requires c.Valid() && Run(c, run) && i < |run|
    ensures run[i].counter == AffineAims(c, run, i) % UINT_RANGE
  {
    if i > 0 {
      var chosen := Affine(c, run[i - 1], run[i]);
      CounterCounts(c, run, i - 1);
      assert StepAt(c, run, i);
      CounterMoves(c, run[i - 1], run[i]);
      BumpedIs(AffineAims(c, run, i - 1), chosen);
      assert run[i].counter == Bumped(run[i - 1].counter, chosen);
    }
  }

  /** A choice of queue `q` for an instance of task `t` with the mask `mask`, before which
      there have been `n` such choices. */
  ghost predicate Chosen(c: Config, run: seq<State>, j: nat, t: nat, q: QueueId, mask: Mask, n: nat) {
    && c.Valid() && j + 1 < |run| && AimStep(c, run[j], run[j + 1], t, q) && Restricted(c, run[j].attrs[t])
    && MaskOf(c, run[j].attrs[t]) == mask && AffineAims(c, run, j) == n
  }

  lemma AimTarget(c: Config, s: State, s': State, t: nat, q: QueueId)
    requires c.Valid() && AimStep(c, s, s', t, q) && Restricted(c, s.attrs[t])
    ensures q.Private? && q.priority == s.attrs[t].priority
    ensures IsTarget(MaskOf(c, s.attrs[t]), s.counter, c.workers, q.worker)
  {
  }

  lemma SmallRemainder(n: nat)
    requires n < UINT_RANGE
    ensures n % UINT_RANGE == n
  {
  }

  lemma CounterReads(c: Config, run: seq<State>, j: nat, n: nat)
    requires c.Valid() && Run(c, run) && j < |run| && AffineAims(c, run, j) == n < UINT_RANGE
    ensures run[j].counter == n
  {
    CounterCounts(c, run, j);
    SmallRemainder(n);
  }

  lemma ChoiceTarget(c: Config, run: seq<State>, j: nat, t: nat, q: QueueId, mask: Mask, n: nat)
    requires Run(c, run) && Chosen(c, run, j, t, q, mask, n) && n < UINT_RANGE
    ensures q.Private? && q.priority == run[j].attrs[t].priority && IsTarget(mask, n, c.workers, q.worker)
  {
    CounterReads(c, run, j, n);
    AimTarget(c, run[j], run[j + 1], t, q);
  }

  /** Each choice takes a private queue of the task's priority, of the worker that the number
      of choices so far selects: that number itself if it is a worker in the mask, otherwise
      the first worker in the mask from the next number on. */
  lemma ChoiceExact(c: Config, run: seq<State>, j: nat, t: nat, q: QueueId, mask: Mask, n: nat)
    requires Run(c, run) && Chosen(c, run, j, t, q, mask, n) && n + 1 < UINT_RANGE
    ensures q.Private? && q.priority == run[j].attrs[t].priority
    ensures if n < c.workers && n in mask then q.worker == n else Nearest(mask, n + 1, c.workers, q.worker)
  {
    ChoiceTarget(c, run, j, t, q, mask, n);
    TargetClosed(mask, n, c.workers, q.worker);
  }

  datatype Choice = Choice(j: nat, t: nat, q: QueueId)

  /** As many successive choices as there are workers, all for one mask, serve every worker
      in it, if they are the first ones of all or come when there have been at least as
      many. */
  lemma ChoicesServe(c: Config, run: seq<State>, choices: seq<Choice>, mask: Mask, n: nat, w: nat)
    requires Run(c, run) && c.Valid() && |choices| == c.workers && n + c.workers < UINT_RANGE
    requires forall d :: 0 <= d < c.workers ==>
               Chosen(c, run, choices[d].j, choices[d].t, choices[d].q, mask, n + d)
    requires (n == 0 || n >= c.workers) && w < c.workers && w in mask
    ensures exists d :: 0 <= d < c.workers && choices[d].q.worker == w
  {
    WorkerServed(mask, n, c.workers, w);
    var v: nat :| n <= v < n + c.workers && IsTarget(mask, v, c.workers, w);
    var choice := choices[v - n];
    ChoiceTarget(c, run, choice.j, choice.t, choice.q, mask, v);
    TargetUnique(mask, v, c.workers, w, choice.q.worker);
  }
}
