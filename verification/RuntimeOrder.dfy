/** Ordered queues keep the order in which tasks were enqueued. */
module RuntimeOrder {
  import opened Common
  import opened Affinity
  import opened Runtime
  import opened RuntimePlacement
  import opened RuntimeSafety

  // ----- one queue for all tasks ------------------------------------------

  /** The one queue all tasks of ordered queue `o` go to. */
  ghost function OrderedTarget(c: Config, o: nat): QueueId
    requires c.Valid() && o in c.queues
  {
    var attributes := c.queues[o];
    if c.workers == 1 then Public(0, attributes.priority)
    else Private(attributes.slot % c.workers, attributes.priority)
  }

  /** For one worker the queue's mask is the mask of all cores, for more it is not. */
  lemma OrderedSuits(c: Config, o: nat, attr: Attributes, q: QueueId)
    requires c.Valid() && o in c.queues && c.queues[o].ordered
    requires attr.queue == Some(o) && attr.priority == c.queues[o].priority && Suits(c, attr, q)
    ensures q == OrderedTarget(c, o)
  {
    var core := c.queues[o].slot % c.workers;
    assert MaskOf(c, attr) == {core};
    if c.workers == 1 {
      assert {core} == AllCores(c.workers);
    } else {
      var other := if core == 0 then 1 else 0;
      assert other in AllCores(c.workers) && other !in {core};
    }
  }

  /** An ordered queue goes to the worker that its slot selects: queues in different ones of as
      many successive slots as there are workers go to different workers. */
  lemma OrderedSpread(c: Config, o1: nat, o2: nat, attr1: Attributes, attr2: Attributes, q1: QueueId, q2: QueueId)
    requires c.Valid() && o1 in c.queues && c.queues[o1].ordered && o2 in c.queues && c.queues[o2].ordered
    requires attr1.queue == Some(o1) && attr1.priority == c.queues[o1].priority && Suits(c, attr1, q1)
    requires attr2.queue == Some(o2) && attr2.priority == c.queues[o2].priority && Suits(c, attr2, q2)
    ensures q1.worker == c.queues[o1].slot % c.workers && q2.worker == c.queues[o2].slot % c.workers
    ensures c.queues[o1].slot < c.queues[o2].slot < c.queues[o1].slot + c.workers ==> q1.worker != q2.worker
  {
    OrderedSuits(c, o1, attr1, q1);
    OrderedSuits(c, o2, attr2, q2);
    var slot, d := c.queues[o1].slot, c.queues[o2].slot - c.queues[o1].slot;
    if 0 < d < c.workers {
      AroundIs(slot, d, c.workers);
      assert Around(slot, d, c.workers) == c.queues[o2].slot % c.workers;
    }
  }

  ghost predicate Via(attrs: map<nat, Attributes>, o: nat, e: Entry) {
    e.task in attrs && attrs[e.task].queue == Some(o)
  }

  /** The entries of a log that were enqueued through queue `o`. */
  ghost function Through(attrs: map<nat, Attributes>, o: nat, log: seq<(QueueId, Entry)>): seq<Entry> {
    if log == [] then [] else
      var last := log[|log| - 1];
      Through(attrs, o, log[..|log| - 1]) + (if Via(attrs, o, last.1) then [last.1] else [])
  }

  ghost function Select(attrs: map<nat, Attributes>, o: nat, entries: seq<Entry>): seq<Entry> {
    if entries == [] then [] else
      var last := entries[|entries| - 1];
      Select(attrs, o, entries[..|entries| - 1]) + (if Via(attrs, o, last) then [last] else [])
  }

  lemma {:induction false} SelectConcat(attrs: map<nat, Attributes>, o: nat, a: seq<Entry>, b: seq<Entry>)
    ensures Select(attrs, o, a + b) == Select(attrs, o, a) + Select(attrs, o, b)
    decreases |b|
  {
    if b == [] {
      assert a + b == a;
    } else {
      assert (a + b)[..|a + b| - 1] == a + b[..|b| - 1];
      SelectConcat(attrs, o, a, b[..|b| - 1]);
    }
  }

  ghost predicate AllVia(attrs: map<nat, Attributes>, o: nat, target: QueueId, log: seq<(QueueId, Entry)>) {
    forall i {:trigger log[i]} :: 0 <= i < |log| && Via(attrs, o, log[i].1) ==> log[i].0 == target
  }

  lemma {:induction false} ThroughTarget(attrs: map<nat, Attributes>, o: nat, target: QueueId,
                                         log: seq<(QueueId, Entry)>)
    requires AllVia(attrs, o, target, log)
    ensures Through(attrs, o, log) == Select(attrs, o, Of(log, target))
  {
    if log != [] {
      var init, last := log[..|log| - 1], log[|log| - 1];
      ThroughTarget(attrs, o, target, init);
      SelectConcat(attrs, o, Of(init, target), if last.0 == target then [last.1] else []);
      assert Select(attrs, o, [last.1]) == if Via(attrs, o, last.1) then [last.1] else [];
    }
  }

  lemma LogsVia(c: Config, s: State, o: nat, log: seq<(QueueId, Entry)>)
    requires Named(c, s) && LogSuits(c, s.attrs, log) && o in c.queues && c.queues[o].ordered
    ensures AllVia(s.attrs, o, OrderedTarget(c, o), log)
  {
    forall i | 0 <= i < |log| && Via(s.attrs, o, log[i].1) ensures log[i].0 == OrderedTarget(c, o) {
      OrderedSuits(c, o, s.attrs[log[i].1.task], log[i].0);
    }
  }

  /** Tasks enqueued through one ordered queue are dequeued in the order in which
      they were enqueued, for every number of workers. */
  lemma OrderedFifo(c: Config, run: seq<State>, i: nat, o: nat)
    requires Run(c, run) && i < |run| && o in c.queues && c.queues[o].ordered
    ensures Through(run[i].attrs, o, run[i].pops) <= Through(run[i].attrs, o, run[i].pushes)
  {
    RunSafe(c, run, i);
    var s := run[i];
    var q := OrderedTarget(c, o);
    assert Keeps(c, s, OfNames) && Keeps(c, s, OfSuits) && Keeps(c, s, OfLogs);
    LogsVia(c, s, o, s.pushes);
    LogsVia(c, s, o, s.pops);
    ThroughTarget(s.attrs, o, q, s.pushes);
    ThroughTarget(s.attrs, o, q, s.pops);
    if q in s.queues {
      SelectConcat(s.attrs, o, Of(s.pops, q), s.queues[q]);
    } else {
      NothingThrough(c, s, q, s.pops);
    }
  }

  lemma {:induction false} NothingThrough(c: Config, s: State, q: QueueId, log: seq<(QueueId, Entry)>)
    requires Named(c, s) && LogSuits(c, s.attrs, log) && q !in s.queues
    ensures Of(log, q) == []
  {
    if log != [] {
      NothingThrough(c, s, q, log[..|log| - 1]);
      assert Suits(c, s.attrs[log[|log| - 1].1.task], log[|log| - 1].0);
    }
  }

  // ----- the order of the calls -------------------------------------------

  lemma {:induction false} OfConcat(a: seq<(QueueId, Entry)>, b: seq<(QueueId, Entry)>, q: QueueId)
    ensures Of(a + b, q) == Of(a, q) + Of(b, q)
    decreases |b|
  {
    if b == [] {
      assert a + b == a;
    } else {
      assert (a + b)[..|a + b| - 1] == a + b[..|b| - 1];
      OfConcat(a, b[..|b| - 1], q);
    }
  }

  /** What a queue's log tells about it comes from the log. */
  lemma {:induction false} OfFrom(log: seq<(QueueId, Entry)>, q: QueueId, k: nat)
    requires k < |Of(log, q)|
    ensures exists i :: 0 <= i < |log| && log[i] == (q, Of(log, q)[k])
  {
    var init, last := log[..|log| - 1], log[|log| - 1];
    if k < |Of(init, q)| {
      OfFrom(init, q, k);
      var i :| 0 <= i < |init| && init[i] == (q, Of(init, q)[k]);
      assert log[i] == (q, Of(log, q)[k]);
    } else {
      assert log[|log| - 1] == (q, Of(log, q)[k]);
    }
  }

  /** The place of entry `i` of a log in the log of its queue. */
  lemma OfPlace(log: seq<(QueueId, Entry)>, i: nat)
    requires i < |log|
    ensures var k := |Of(log[..i], log[i].0)|; k < |Of(log, log[i].0)| && Of(log, log[i].0)[k] == log[i].1
  {
    var q := log[i].0;
    var head, tail := log[..i + 1], log[i + 1..];
    assert head[..i] == log[..i] && head[i] == log[i];
    assert Of(head, q) == Of(log[..i], q) + [log[i].1];
    assert log == head + tail;
    OfConcat(head, tail, q);
  }

  /** Places in the log of a queue keep the order of the log. */
  lemma OfOrder(log: seq<(QueueId, Entry)>, i: nat, j: nat, q: QueueId)
    requires i < j < |log| && log[i].0 == q
    ensures |Of(log[..i], q)| < |Of(log[..j], q)|
  {
    OfPlace(log[..j], i);
    assert log[..j][..i] == log[..i];
  }

  ghost predicate NoneOf(t: nat, log: seq<(QueueId, Entry)>) {
    forall i {:trigger log[i]} :: 0 <= i < |log| ==> log[i].1.task != t
  }

  /** Task `t` with attributes `attr` has been started, and nothing of it has been pushed
      after `early`. */
  ghost predicate SinceStart(s: State, t: nat, attr: Attributes, early: seq<(QueueId, Entry)>) {
    && t in s.tasks && t in s.attrs && s.attrs[t] == attr && s.tasks[t].producer.Started?
    && early <= s.pushes && NoneOf(t, s.pushes[|early|..])
  }

  lemma SinceByPush(c: Config, s: State, s': State, u: nat, t: nat, attr: Attributes, early: seq<(QueueId, Entry)>)
    requires PushStep(c, s, s', u) && SinceStart(s, t, attr, early)
    ensures SinceStart(s', t, attr, early)
  {
    var e := Entry(u, s.tasks[u].producer.k);
    assert s'.pushes[|early|..] == s.pushes[|early|..] + [(s.tasks[u].producer.queue, e)];
  }

  lemma StartedByProducer(c: Config, s: State, s': State, step: Step, t: nat)
    requires ProducerMoves(c, s, s', step) && t in s.tasks && s.tasks[t].producer.Started?
    ensures s'.attrs == s.attrs && t in s'.tasks && s'.tasks[t].producer.Started?
  {
    TasksByProducer(c, s, s', step);
  }

  lemma StartedByExecutor(c: Config, s: State, s': State, step: Step, t: nat)
    requires ExecutorMoves(c, s, s', step) && t in s.tasks && s.tasks[t].producer.Started?
    ensures s'.attrs == s.attrs && t in s'.tasks && s'.tasks[t].producer.Started?
  {
    ExecutorEffect(c, s, s', step);
    NamesByExecutor(c, s, s', step);
    assert t in s'.tasks.Keys;
  }

  lemma StartedByCollector(s: State, s': State, step: Step, t: nat)
    requires CollectorMoves(s, s', step) && t in s.tasks && s.tasks[t].producer.Started?
    ensures s'.attrs == s.attrs && t in s'.tasks && s'.tasks[t].producer.Started?
  {
  }

  lemma SinceByOthers(c: Config, s: State, s': State, step: Step, t: nat, attr: Attributes,
                      early: seq<(QueueId, Entry)>)
    requires Next(c, s, s', step) && SinceStart(s, t, attr, early) && !step.Pushes? && !step.Pops?
    ensures SinceStart(s', t, attr, early)
  {
    LogsUntouched(c, s, s', step);
    if ProducerMoves(c, s, s', step) { StartedByProducer(c, s, s', step, t); }
    else if ExecutorMoves(c, s, s', step) { StartedByExecutor(c, s, s', step, t); }
    else if CollectorMoves(s, s', step) { StartedByCollector(s, s', step, t); }
  }

  lemma SinceMoves(c: Config, s: State, s': State, t: nat, attr: Attributes, early: seq<(QueueId, Entry)>)
    requires Moves(c, s, s') && SinceStart(s, t, attr, early)
    ensures SinceStart(s', t, attr, early)
  {
    var step :| Next(c, s, s', step);
    if step.Pushes? { SinceByPush(c, s, s', step.t, t, attr, early); }
    else if !step.Pops? { SinceByOthers(c, s, s', step, t, attr, early); }
  }

  lemma {:induction false} SinceStays(c: Config, run: seq<State>, k: nat, i: nat, t: nat, attr: Attributes,
                                      early: seq<(QueueId, Entry)>)
    requires Run(c, run) && k <= i < |run| && SinceStart(run[k], t, attr, early)
    ensures SinceStart(run[i], t, attr, early)
  {
    if k < i {
      SinceStays(c, run, k, i - 1, t, attr, early);
      assert StepAt(c, run, i);
      SinceMoves(c, run[i - 1], run[i], t, attr, early);
    }
  }

  /** Where the entries of two tasks are in a log that falls into an early part without
      the one and a late part without the other. */
  lemma Halves(early: seq<(QueueId, Entry)>, late: seq<(QueueId, Entry)>, q: QueueId, t1: nat, t2: nat, p: nat)
    requires NoneOf(t2, early) && NoneOf(t1, late) && p < |Of(early + late, q)|
    ensures Of(early + late, q)[p].task == t1 ==> p < |Of(early, q)|
    ensures Of(early + late, q)[p].task == t2 ==> p >= |Of(early, q)|
  {
    OfConcat(early, late, q);
    if p < |Of(early, q)| {
      OfFrom(early, q, p);
    } else {
      OfFrom(late, q, p - |Of(early, q)|);
    }
  }

  /** The place of pop `x` among the pushes to its queue. */
  lemma PopPlace(s: State, x: nat)
    requires Logged(s) && x < |s.pops| && s.pops[x].0 in s.queues
    ensures var q := s.pops[x].0; var p := |Of(s.pops[..x], q)|;
            p < |Of(s.pops, q)| <= |Of(s.pushes, q)| && Of(s.pushes, q)[p] == s.pops[x].1
  {
    OfPlace(s.pops, x);
  }

  /** An entry of `t1` is popped before one of `t2`. */
  lemma PopsOrdered(s: State, early: seq<(QueueId, Entry)>, late: seq<(QueueId, Entry)>, q: QueueId, t1: nat, t2: nat,
                    x: nat, y: nat)
    requires Logged(s) && s.pushes == early + late && NoneOf(t2, early) && NoneOf(t1, late) && q in s.queues
    requires x < |s.pops| && s.pops[x].0 == q && s.pops[x].1.task == t1
    requires y < |s.pops| && s.pops[y].0 == q && s.pops[y].1.task == t2
    ensures t1 != t2 ==> x < y
  {
    PopPlace(s, x);
    PopPlace(s, y);
    Halves(early, late, q, t1, t2, |Of(s.pops[..x], q)|);
    Halves(early, late, q, t1, t2, |Of(s.pops[..y], q)|);
    if y < x { OfOrder(s.pops, y, x, q); }
  }

  /** Once an entry of `t2` has been popped, the queue holds none of `t1`. */
  lemma QueueDrained(s: State, early: seq<(QueueId, Entry)>, late: seq<(QueueId, Entry)>, q: QueueId, t1: nat, t2: nat,
                     y: nat, z: nat)
    requires Logged(s) && s.pushes == early + late && NoneOf(t2, early) && NoneOf(t1, late) && q in s.queues
    requires y < |s.pops| && s.pops[y].0 == q && s.pops[y].1.task == t2 && z < |s.queues[q]|
    ensures s.queues[q][z].task != t1
  {
    PopPlace(s, y);
    Halves(early, late, q, t1, t2, |Of(s.pops[..y], q)|);
    Halves(early, late, q, t1, t2, |Of(s.pops, q)| + z);
  }

  /** All entries of the two tasks go to the ordered queue's target. */
  lemma PopTarget(c: Config, s: State, o: nat, x: nat)
    requires Named(c, s) && LogSuits(c, s.attrs, s.pops) && o in c.queues && c.queues[o].ordered
    requires x < |s.pops| && Via(s.attrs, o, s.pops[x].1)
    ensures s.pops[x].0 == OrderedTarget(c, o) && OrderedTarget(c, o) in s.queues
  {
    LogsVia(c, s, o, s.pops);
  }

  lemma QueuedTarget(c: Config, s: State, o: nat, e: Entry)
    requires Named(c, s) && Placed(s) && Aimed(c, s) && o in c.queues && c.queues[o].ordered
    requires e in s.stage && s.stage[e].Queued? && Via(s.attrs, o, e)
    ensures OrderedTarget(c, o) in s.queues && e in s.queues[OrderedTarget(c, o)]
  {
    assert StageSuits(c, s.attrs[e.task], s.stage[e]);
    OrderedSuits(c, o, s.attrs[e.task], s.stage[e].queue);
  }

  /** Every entry of `t1` precedes every entry of `t2`. */
  ghost predicate Precedes(log: seq<(QueueId, Entry)>, t1: nat, t2: nat) {
    forall x, y {:trigger log[x], log[y]} ::
      0 <= x < |log| && 0 <= y < |log| && log[x].1.task == t1 && log[y].1.task == t2 ==> x < y
  }

  ghost predicate Mentions(log: seq<(QueueId, Entry)>, t: nat) {
    exists y :: 0 <= y < |log| && log[y].1.task == t
  }

  /** No instance of the task waits in a queue. */
  ghost predicate Drained(s: State, t: nat) {
    forall e :: e in s.stage && e.task == t ==> !s.stage[e].Queued?
  }

  lemma PrecedesIn(c: Config, s: State, o: nat, t1: nat, t2: nat, early: seq<(QueueId, Entry)>,
                   late: seq<(QueueId, Entry)>)
    requires Named(c, s) && Logged(s) && LogSuits(c, s.attrs, s.pops) && o in c.queues && c.queues[o].ordered
    requires t1 != t2
    requires t1 in s.attrs && s.attrs[t1].queue == Some(o) && t2 in s.attrs && s.attrs[t2].queue == Some(o)
    requires s.pushes == early + late && NoneOf(t1, late) && NoneOf(t2, early)
    ensures Precedes(s.pops, t1, t2)
  {
    forall x, y | 0 <= x < |s.pops| && 0 <= y < |s.pops| && s.pops[x].1.task == t1 && s.pops[y].1.task == t2
      ensures x < y
    {
      PopTarget(c, s, o, x);
      PopTarget(c, s, o, y);
      PopsOrdered(s, early, late, OrderedTarget(c, o), t1, t2, x, y);
    }
  }

  lemma OrderedIn(c: Config, s: State, o: nat, t1: nat, t2: nat, early: seq<(QueueId, Entry)>)
    requires Named(c, s) && Placed(s) && Logged(s) && Aimed(c, s) && LogSuits(c, s.attrs, s.pops)
    requires o in c.queues && c.queues[o].ordered && t1 != t2
    requires t1 in s.attrs && s.attrs[t1].queue == Some(o) && t2 in s.attrs && s.attrs[t2].queue == Some(o)
    requires early <= s.pushes && NoneOf(t1, s.pushes[|early|..]) && NoneOf(t2, early)
    ensures Precedes(s.pops, t1, t2) && (Mentions(s.pops, t2) ==> Drained(s, t1))
  {
    var late := s.pushes[|early|..];
    assert s.pushes == early + late;
    PrecedesIn(c, s, o, t1, t2, early, late);
    if y :| 0 <= y < |s.pops| && s.pops[y].1.task == t2 {
      PopTarget(c, s, o, y);
      DrainedIn(c, s, o, t1, t2, early, late, y);
    }
  }

  lemma DrainedIn(c: Config, s: State, o: nat, t1: nat, t2: nat, early: seq<(QueueId, Entry)>,
                  late: seq<(QueueId, Entry)>, y: nat)
    requires Named(c, s) && Placed(s) && Logged(s) && Aimed(c, s)
    requires o in c.queues && c.queues[o].ordered && t1 in s.attrs && s.attrs[t1].queue == Some(o)
    requires s.pushes == early + late && NoneOf(t1, late) && NoneOf(t2, early)
    requires y < |s.pops| && s.pops[y].0 == OrderedTarget(c, o) && s.pops[y].1.task == t2
    ensures Drained(s, t1)
  {
    var q := OrderedTarget(c, o);
    forall e | e in s.stage && e.task == t1 ensures !s.stage[e].Queued? {
      if s.stage[e].Queued? {
        QueuedTarget(c, s, o, e);
        var z :| 0 <= z < |s.queues[q]| && s.queues[q][z] == e;
        QueueDrained(s, early, late, q, t1, t2, y, z);
      }
    }
  }

  /** The tasks of a log exist. */
  lemma Unlogged(c: Config, s: State, t: nat)
    requires LogSuits(c, s.attrs, s.pushes) && s.attrs.Keys == s.tasks.Keys && t !in s.tasks
    ensures NoneOf(t, s.pushes)
  {
    assert t !in s.attrs.Keys;
  }

  lemma UnloggedAt(c: Config, run: seq<State>, k: nat, t: nat)
    requires Run(c, run) && k < |run| && t !in run[k].tasks
    ensures NoneOf(t, run[k].pushes)
  {
    RunSafe(c, run, k);
    assert Keeps(c, run[k], OfStages) && Keeps(c, run[k], OfSuits);
    Unlogged(c, run[k], t);
  }

  /** If one task has been started before another one is created, and both were enqueued
      through one ordered queue, then all instances of the first are dequeued before any
      instance of the second, and have left the queue by then. */
  lemma OrderedCalls(c: Config, run: seq<State>, k: nat, i: nat, o: nat, t1: nat, t2: nat)
    requires Run(c, run) && k <= i < |run| && o in c.queues && c.queues[o].ordered
    requires t1 in run[k].tasks && t1 in run[k].attrs && run[k].attrs[t1].queue == Some(o)
    requires run[k].tasks[t1].producer.Started?
    requires t2 !in run[k].tasks && t2 in run[i].attrs && run[i].attrs[t2].queue == Some(o)
    ensures Precedes(run[i].pops, t1, t2) && (Mentions(run[i].pops, t2) ==> Drained(run[i], t1))
  {
    var attr, early := run[k].attrs[t1], run[k].pushes;
    assert early[|early|..] == [];
    SinceStays(c, run, k, i, t1, attr, early);
    UnloggedAt(c, run, k, t2);
    RunSafe(c, run, i);
    assert Keeps(c, run[i], OfNames) && Keeps(c, run[i], OfPlaces) && Keeps(c, run[i], OfLogs);
    assert Keeps(c, run[i], OfAims) && Keeps(c, run[i], OfSuits);
    OrderedIn(c, run[i], o, t1, t2, early);
  }
}
