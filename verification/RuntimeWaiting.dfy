/** What waiting for the tasks of a group guarantees, and when it never ends. */
module RuntimeWaiting {
  import opened Common
  import opened Runtime
  import opened RuntimeInvariants
  import opened RuntimeGroups
  import opened RuntimeSafety
  import opened RuntimePhases
  import opened RuntimeStuck
  import opened RuntimeTheorems

  // ----- groups -----------------------------------------------------------

  ghost function Unfinished(s: State, g: nat): set<nat> {
    set t | t in s.tasks && PhaseIn(s, g, t).Unfinished?
  }

  ghost function BeingCollected(s: State, g: nat): set<nat> {
    set t | t in s.tasks && (PhaseIn(s, g, t).Taken? || PhaseIn(s, g, t).Deleted?)
  }

  ghost function LostTo(s: State, g: nat): set<nat> {
    set t | t in s.tasks && PhaseIn(s, g, t).Lost?
  }

  /** A group's counter is the number of its unfinished tasks, plus those waiting in
      its queue, plus those popped but not yet discounted, plus those lost. */
  lemma GroupConservation(c: Config, run: seq<State>, i: nat, g: nat)
    requires Run(c, run) && i < |run| && g in run[i].groups
    ensures run[i].groups[g].numTasks ==
              |Unfinished(run[i], g)| + |run[i].groups[g].queue| + |BeingCollected(run[i], g)| + |LostTo(run[i], g)|
  {
    RunSafe(c, run, i);
    assert Keeps(c, run[i], OfGroups);
    GroupCount(c.limit, run[i], g, run[i].groups[g]);
  }

  lemma GroupParts(limit: nat, s: State, g: nat, group: Group, waiting: set<nat>)
    requires GroupOk(limit, s, g, group) && forall t :: t in waiting <==> t in group.queue
    ensures group.open == Unfinished(s, g) + waiting + BeingCollected(s, g) + LostTo(s, g)
  {
    forall t ensures t in group.open <==> t in Unfinished(s, g) + waiting + BeingCollected(s, g) + LostTo(s, g) {
      assert t in group.open <==> CountedPhase(PhaseIn(s, g, t));
    }
  }

  lemma GroupDisjoint(limit: nat, s: State, g: nat, group: Group, waiting: set<nat>)
    requires GroupOk(limit, s, g, group) && forall t :: t in waiting <==> t in group.queue
    ensures Unfinished(s, g) !! waiting && Unfinished(s, g) + waiting !! BeingCollected(s, g)
    ensures Unfinished(s, g) + waiting + BeingCollected(s, g) !! LostTo(s, g)
  {
  }

  lemma GroupCount(limit: nat, s: State, g: nat, group: Group)
    requires GroupOk(limit, s, g, group)
    ensures group.numTasks == |Unfinished(s, g)| + |group.queue| + |BeingCollected(s, g)| + |LostTo(s, g)|
  {
    var waiting := set t | t in group.queue;
    DistinctCardinality(group.queue, waiting);
    GroupParts(limit, s, g, group, waiting);
    GroupDisjoint(limit, s, g, group, waiting);
    FourParts(group.open, Unfinished(s, g), waiting, BeingCollected(s, g), LostTo(s, g));
  }

  /** While the counter is zero, every task that joined the group has run all its
      instances, and was collected and deleted, once. */
  lemma GroupComplete(c: Config, run: seq<State>, i: nat, g: nat)
    requires Run(c, run) && i < |run| && g in run[i].groups && run[i].groups[g].numTasks == 0
    ensures Distinct(run[i].groups[g].collected)
    ensures forall t :: t in run[i].tasks && t in run[i].attrs && !PhaseIn(run[i], g, t).Outside? ==>
              t in run[i].groups[g].collected && run[i].tasks[t].state.Error? && Remaining(run[i], t) == {}
  {
    RunSafe(c, run, i);
    var s := run[i];
    assert Keeps(c, s, OfGroups);
    assert Keeps(c, s, OfStages) && Keeps(c, s, OfCounts);
    assert GroupOk(c.limit, s, g, s.groups[g]);
    forall t | t in s.tasks && t in s.attrs && !PhaseIn(s, g, t).Outside?
      ensures t in s.groups[g].collected && s.tasks[t].state.Error? && Remaining(s, t) == {}
    {
      assert t !in s.groups[g].open;
      assert TaskOk(s.attrs[t], s.tasks[t]);
      RemainingIsPending(s, t);
    }
  }

  /** No two calls collect the same task, and a wait_any call collects at most one. */
  lemma CollectedOnce(c: Config, run: seq<State>, i: nat, j: nat, k: nat)
    requires Run(c, run) && i < |run| && j in run[i].collectors && k in run[i].collectors && j != k
    ensures forall t :: t in run[i].collectors[j].got ==> t !in run[i].collectors[k].got
    ensures Distinct(run[i].collectors[j].got)
    ensures !run[i].collectors[j].all ==> |run[i].collectors[j].got| <= 1
  {
    RunSafe(c, run, i);
    var s := run[i];
    assert Keeps(c, s, OfCalls);
    assert CollectorOk(s, j, s.collectors[j]) && CollectorOk(s, k, s.collectors[k]);
  }

  ghost predicate Got(s: State, g: nat, j: nat, t: nat) {
    j in s.collectors && s.collectors[j].group == g && t in s.collectors[j].got
  }

  /** The tasks collected from a group are exactly those that calls waiting for it got,
      each of them one call. */
  lemma CollectedByOne(c: Config, run: seq<State>, i: nat, g: nat, t: nat)
    requires Run(c, run) && i < |run| && g in run[i].groups
    ensures t in run[i].groups[g].collected <==> exists j :: Got(run[i], g, j, t)
    ensures forall j, k :: Got(run[i], g, j, t) && Got(run[i], g, k, t) ==> j == k
  {
    RunSafe(c, run, i);
    assert Keeps(c, run[i], OfCalls) && Keeps(c, run[i], OfGroups);
    GotByOne(c, run[i], g, t);
  }

  lemma GotByOne(c: Config, s: State, g: nat, t: nat)
    requires Grouped(c, s) && Collecting(s) && g in s.groups
    ensures t in s.groups[g].collected <==> exists j :: Got(s, g, j, t)
    ensures forall j, k :: Got(s, g, j, t) && Got(s, g, k, t) ==> j == k
  {
    var p := PhaseIn(s, g, t);
    assert GroupOk(c.limit, s, g, s.groups[g]) && TakenOk(s, g, t, p);
    forall j ensures Got(s, g, j, t) <==> DeletedBy(p, j) {
      if j in s.collectors { assert CollectorOk(s, j, s.collectors[j]); }
    }
    if DeletedPhase(p) { assert Got(s, g, p.collector, t); }
  }

  // ----- calls ------------------------------------------------------------

  /** Call `j` is a wait_all for group `g` that, if it has returned, has left nothing of
      the joined task `t` to be collected. */
  ghost predicate CallOk(s: State, j: nat, g: nat, t: nat) {
    && j in s.collectors && s.collectors[j].all && s.collectors[j].group == g
    && !PhaseIn(s, g, t).Outside?
    && (s.collectors[j].pc.Returned? ==> DeletedPhase(PhaseIn(s, g, t)))
  }

  /** A wait_all call returns only by reading zero. */
  lemma ReturnsAtZero(c: Config, s: State, s': State, step: Step, j: nat)
    requires Next(c, s, s', step) && j in s.collectors && s.collectors[j].all && s.collectors[j].group in s.groups
    ensures j in s'.collectors && s'.collectors[j].all && s'.collectors[j].group == s.collectors[j].group
    ensures s'.collectors[j].pc.Returned? ==>
              s.collectors[j].pc.Returned? || s.groups[s.collectors[j].group].numTasks == 0
  {
    if CollectorMoves(s, s', step) {
    } else if ProducerMoves(c, s, s', step) {
      TasksByProducer(c, s, s', step);
    } else if ExecutorMoves(c, s, s', step) {
      CollectorsByExecutor(c, s, s', step);
    }
  }

  lemma CollectorsByExecutor(c: Config, s: State, s': State, step: Step)
    requires ExecutorMoves(c, s, s', step)
    ensures s'.collectors == s.collectors
  {
  }

  /** At zero a joined task has been collected. */
  lemma ZeroCollected(c: Config, s: State, g: nat, t: nat)
    requires Grouped(c, s) && g in s.groups && s.groups[g].numTasks == 0 && !PhaseIn(s, g, t).Outside?
    ensures DeletedPhase(PhaseIn(s, g, t))
  {
    assert GroupOk(c.limit, s, g, s.groups[g]);
    assert t !in s.groups[g].open;
  }

  lemma CallAt(c: Config, path: seq<State>, k: nat, j: nat, g: nat, t: nat)
    requires Path(c, path) && 0 < k < |path| && Inv(c, path[k - 1]) && CallOk(path[k - 1], j, g, t)
    ensures CallOk(path[k], j, g, t)
  {
    assert StepAt(c, path, k);
    var s, s' := path[k - 1], path[k];
    var step :| Next(c, s, s', step);
    assert Keeps(c, s, OfCounts) && Keeps(c, s, OfGroups) && Keeps(c, s, OfCalls);
    PhaseAdvances(c, s, s', step, g, t);
    assert CollectorOk(s, j, s.collectors[j]);
    ReturnsAtZero(c, s, s', step, j);
    if s.groups[g].numTasks == 0 { ZeroCollected(c, s, g, t); }
  }

  lemma {:induction false} CallAlong(c: Config, path: seq<State>, i: nat, k: nat, j: nat, g: nat, t: nat)
    requires Path(c, path) && i <= k < |path| && Inv(c, path[i]) && CallOk(path[i], j, g, t)
    ensures CallOk(path[k], j, g, t)
  {
    if i < k {
      CallAlong(c, path, i, k - 1, j, g, t);
      SafeAlong(c, path, i, k - 1);
      CallAt(c, path, k, j, g, t);
    }
  }

  /** When a wait_all call has returned, every task that joined its group before that,
      when the call was opened or later, has been collected and deleted. */
  lemma WaitAllComplete(c: Config, run: seq<State>, i: nat, k: nat, j: nat, t: nat)
    requires Run(c, run) && i <= k < |run|
    requires j in run[i].collectors && run[i].collectors[j].all && !run[i].collectors[j].pc.Returned?
    requires !PhaseIn(run[i], run[i].collectors[j].group, t).Outside?
    requires j in run[k].collectors && run[k].collectors[j].pc.Returned?
    ensures var g := run[i].collectors[j].group; g in run[k].groups && t in run[k].groups[g].collected
  {
    var g := run[i].collectors[j].group;
    RunSafe(c, run, i);
    CallAlong(c, run, i, k, j, g, t);
    RunSafe(c, run, k);
    assert Keeps(c, run[k], OfCalls);
    assert CollectorOk(run[k], j, run[k].collectors[j]);
    assert Keeps(c, run[k], OfGroups);
    assert GroupOk(c.limit, run[k], g, run[k].groups[g]);
  }

  /** The wait_any calls of a group that have collected a task. */
  ghost function Successful(s: State, g: nat): set<nat> {
    set j | j in s.collectors && s.collectors[j].group == g && s.collectors[j].got != []
  }

  /** When only wait_any calls wait for a group, as many of them have been successful as
      tasks have been collected. */
  lemma WaitAnyCount(c: Config, run: seq<State>, i: nat, g: nat)
    requires Run(c, run) && i < |run| && g in run[i].groups
    requires forall j :: j in run[i].collectors && run[i].collectors[j].group == g ==> !run[i].collectors[j].all
    ensures |Successful(run[i], g)| == |run[i].groups[g].collected|
  {
    RunSafe(c, run, i);
    assert Keeps(c, run[i], OfCalls) && Keeps(c, run[i], OfGroups);
    AnyCount(c, run[i], g);
  }

  /** The calls that got the tasks of a list, in its order. */
  lemma Owners(c: Config, s: State, g: nat, tasks: seq<nat>) returns (owners: seq<nat>)
    requires Grouped(c, s) && Collecting(s) && g in s.groups && forall t :: t in tasks ==> t in s.groups[g].collected
    ensures |owners| == |tasks| && forall n :: 0 <= n < |tasks| ==> Got(s, g, owners[n], tasks[n])
  {
    owners := [];
    for n := 0 to |tasks|
      invariant |owners| == n && forall m :: 0 <= m < n ==> Got(s, g, owners[m], tasks[m])
    {
      GotByOne(c, s, g, tasks[n]);
      assert tasks[n] in tasks;
      var j :| Got(s, g, j, tasks[n]);
      owners := owners + [j];
    }
  }

  /** Different tasks were got by different wait_any calls. */
  lemma OwnersDistinct(s: State, g: nat, tasks: seq<nat>, owners: seq<nat>)
    requires Collecting(s) && Distinct(tasks) && |owners| == |tasks|
    requires forall n :: 0 <= n < |tasks| ==> Got(s, g, owners[n], tasks[n])
    requires forall j :: j in s.collectors && s.collectors[j].group == g ==> !s.collectors[j].all
    ensures Distinct(owners)
  {
    forall m, n | 0 <= m < n < |owners| ensures owners[m] != owners[n] {
      assert Got(s, g, owners[m], tasks[m]) && Got(s, g, owners[n], tasks[n]);
      assert CollectorOk(s, owners[m], s.collectors[owners[m]]);
    }
  }

  /** The successful calls are those that got one of the tasks. */
  lemma OwnersSuccessful(c: Config, s: State, g: nat, tasks: seq<nat>, owners: seq<nat>)
    requires Grouped(c, s) && Collecting(s) && g in s.groups && tasks == s.groups[g].collected && |owners| == |tasks|
    requires forall n :: 0 <= n < |tasks| ==> Got(s, g, owners[n], tasks[n])
    ensures forall j :: j in Successful(s, g) <==> j in owners
  {
    forall j | j in Successful(s, g) ensures j in owners {
      var t := s.collectors[j].got[0];
      GotByOne(c, s, g, t);
      assert Got(s, g, j, t);
      var n :| 0 <= n < |tasks| && tasks[n] == t;
      assert Got(s, g, owners[n], t);
    }
    forall j | j in owners ensures j in Successful(s, g) {
      var n :| 0 <= n < |owners| && owners[n] == j;
      assert Got(s, g, j, tasks[n]);
    }
  }

  lemma AnyCount(c: Config, s: State, g: nat)
    requires Grouped(c, s) && Collecting(s) && g in s.groups
    requires forall j :: j in s.collectors && s.collectors[j].group == g ==> !s.collectors[j].all
    ensures |Successful(s, g)| == |s.groups[g].collected|
  {
    var tasks := s.groups[g].collected;
    assert GroupOk(c.limit, s, g, s.groups[g]);
    var owners := Owners(c, s, g, tasks);
    OwnersDistinct(s, g, tasks, owners);
    OwnersSuccessful(c, s, g, tasks, owners);
    DistinctCardinality(owners, Successful(s, g));
  }

  // ----- stuck tasks ------------------------------------------------------

  lemma StuckAt(c: Config, path: seq<State>, k: nat, g: nat, t: nat)
    requires Path(c, path) && 0 < k < |path| && Inv(c, path[k - 1]) && Stuck(c, path[k - 1], g, t)
    ensures Stuck(c, path[k], g, t)
  {
    assert StepAt(c, path, k);
    var s, s' := path[k - 1], path[k];
    MovesKept(c, s, s');
    var step :| Next(c, s, s', step);
    assert Keeps(c, s, OfStages) && Keeps(c, s, OfCounts) && Keeps(c, s, OfGroups);
    assert Keeps(c, s', OfNames) && Keeps(c, s', OfGroups);
    StuckKept(c, s, s', step, g, t);
  }

  lemma {:induction false} StuckAlong(c: Config, path: seq<State>, i: nat, k: nat, g: nat, t: nat)
    requires Path(c, path) && i <= k < |path| && Inv(c, path[i]) && Stuck(c, path[i], g, t)
    ensures Stuck(c, path[k], g, t)
  {
    if i < k {
      StuckAlong(c, path, i, k - 1, g, t);
      SafeAlong(c, path, i, k - 1);
      StuckAt(c, path, k, g, t);
    }
  }

  lemma StuckOpen(c: Config, s: State, g: nat, t: nat)
    requires Staged(s) && Counting(s) && Grouped(c, s) && g in s.groups && Stuck(c, s, g, t)
    ensures s.groups[g].numTasks > 0 && t !in s.groups[g].collected
  {
    StuckCounted(c, s, g, t);
    assert GroupOk(c.limit, s, g, s.groups[g]);
    assert t in s.groups[g].open;
  }

  /** A stuck task stays stuck, is never collected, and its group goes on counting it. */
  lemma StuckStays(c: Config, run: seq<State>, i: nat, k: nat, g: nat, t: nat)
    requires Run(c, run) && i <= k < |run| && Stuck(c, run[i], g, t)
    ensures Stuck(c, run[k], g, t)
    ensures g in run[k].groups ==> run[k].groups[g].numTasks > 0 && t !in run[k].groups[g].collected
  {
    RunSafe(c, run, i);
    StuckAlong(c, run, i, k, g, t);
    RunSafe(c, run, k);
    assert Keeps(c, run[k], OfCounts) && Keeps(c, run[k], OfGroups) && Keeps(c, run[k], OfStages);
    if g in run[k].groups { StuckOpen(c, run[k], g, t); }
  }

  /** Once a task is stuck, no wait_all call for its group returns any more. */
  lemma WaitAllHangs(c: Config, run: seq<State>, i: nat, k: nat, j: nat, t: nat)
    requires Run(c, run) && i <= k < |run|
    requires j in run[i].collectors && run[i].collectors[j].all && !run[i].collectors[j].pc.Returned?
    requires Stuck(c, run[i], run[i].collectors[j].group, t)
    ensures j in run[k].collectors && !run[k].collectors[j].pc.Returned?
  {
    var g := run[i].collectors[j].group;
    RunSafe(c, run, i);
    CallAlong(c, run, i, k, j, g, t);
    StuckAlong(c, run, i, k, g, t);
    RunSafe(c, run, k);
    assert Keeps(c, run[k], OfCounts) && Keeps(c, run[k], OfStages);
    StuckCounted(c, run[k], g, t);
  }

  // ----- when tasks get stuck ---------------------------------------------

  /** Between the two states an unfit task joins the group, a single instance finds its
      queue full, or a finished task finds the queue of its group full. */
  ghost predicate StickingStep(c: Config, s: State, s': State, g: nat) {
    exists step :: Next(c, s, s', step) && Sticks(c, s, step, g)
  }

  lemma NextNotStuck(c: Config, s: State, s': State, step: Step, g: nat)
    requires Inv(c, s) && Inv(c, s') && Next(c, s, s', step) && NoneStuck(c, s, g) && !Sticks(c, s, step, g)
    ensures NoneStuck(c, s', g)
  {
    assert Keeps(c, s, OfStages) && Keeps(c, s, OfCounts) && Keeps(c, s, OfAims) && Keeps(c, s, OfGroups);
    assert Keeps(c, s', OfCounts);
    forall t ensures !Stuck(c, s', g, t) {
      if Stuck(c, s', g, t) { NewlyStuck(c, s, s', step, g, t); }
    }
  }

  lemma NoneStuckAt(c: Config, run: seq<State>, k: nat, g: nat)
    requires Run(c, run) && 0 < k < |run| && NoneStuck(c, run[k - 1], g) && !StickingStep(c, run[k - 1], run[k], g)
    ensures NoneStuck(c, run[k], g)
  {
    assert StepAt(c, run, k);
    var s, s' := run[k - 1], run[k];
    RunSafe(c, run, k - 1);
    MovesKept(c, s, s');
    var step :| Next(c, s, s', step);
    NextNotStuck(c, s, s', step, g);
  }

  lemma {:induction false} NoneStuckWithout(c: Config, run: seq<State>, i: nat, g: nat)
    requires Run(c, run) && i < |run| && forall k :: 0 < k <= i ==> !StickingStep(c, run[k - 1], run[k], g)
    ensures NoneStuck(c, run[i], g)
  {
    if i > 0 {
      NoneStuckWithout(c, run, i - 1, g);
      NoneStuckAt(c, run, i, g);
    }
  }

  lemma StickingMoves(c: Config, s: State, s': State, g: nat) returns (t: nat)
    requires Inv(c, s) && StickingStep(c, s, s', g)
    ensures Stuck(c, s', g, t)
  {
    var step :| Next(c, s, s', step) && Sticks(c, s, step, g);
    assert Keeps(c, s, OfCounts);
    SticksStuck(c, s, s', step, g);
    t := if step.Notifies? then step.e.task else step.t;
  }

  /** No task of a group is stuck if and only if no step of the run has got one stuck:
      every task that joined has instances, a valid action and priority, and a worker in
      its mask, no single instance found its queue full, and no finished task found the
      group's queue full. */
  lemma NoneStuckIff(c: Config, run: seq<State>, i: nat, g: nat)
    requires Run(c, run) && i < |run|
    ensures NoneStuck(c, run[i], g) <==> forall k :: 0 < k <= i ==> !StickingStep(c, run[k - 1], run[k], g)
  {
    if k :| 0 < k <= i && StickingStep(c, run[k - 1], run[k], g) {
      RunSafe(c, run, k - 1);
      var t := StickingMoves(c, run[k - 1], run[k], g);
      RunSafe(c, run, k);
      StuckAlong(c, run, k, i, g, t);
    } else {
      NoneStuckWithout(c, run, i, g);
    }
  }

  /** As long as a group counts no more tasks than its queue can hold, the push at
      the end of a task finds room. */
  lemma RoomToNotify(c: Config, s: State, e: Entry, g: nat)
    requires Counting(s) && Grouped(c, s) && Settles(s, e) && s.stage[e].spc.Notify?
    requires s.attrs[e.task].group == Some(g) && g in s.groups && s.groups[g].numTasks <= c.limit
    ensures |s.groups[g].queue| < c.limit
  {
    var group := s.groups[g];
    assert TaskOk(s.attrs[e.task], s.tasks[e.task]);
    assert EntryOk(s.attrs[e.task], s.tasks[e.task], e.instance, s.stage[e]);
    assert GroupOk(c.limit, s, g, group) && PhaseIn(s, g, e.task).Unfinished?;
    var waiting := set t | t in group.queue;
    DistinctCardinality(group.queue, waiting);
    assert waiting <= group.open - {e.task};
    SubsetCardinality(waiting, group.open - {e.task});
  }

  /** The task can be executed, and its start has not run into a full queue. */
  ghost predicate Fit(c: Config, attr: Attributes, pc: ProducerPc) {
    c.Valid() && !Unfit(c, attr) && !pc.Rollback? && !pc.Fail? && !pc.Failed?
  }

  /** All tasks of group `g` are fit, and it counts no more of them than its queue can
      hold. */
  ghost predicate WithinLimits(c: Config, s: State, g: nat) {
    && g in s.groups && s.groups[g].numTasks <= c.limit
    && forall t :: t in s.tasks && t in s.attrs && s.attrs[t].group == Some(g) ==>
         Fit(c, s.attrs[t], s.tasks[t].producer)
  }

  lemma WithinNotify(c: Config, s: State, s': State, e: Entry, g: nat)
    requires Counting(s) && Grouped(c, s) && WithinLimits(c, s, g) && Next(c, s, s', Notifies(e))
    ensures !Sticks(c, s, Notifies(e), g)
  {
    if s.attrs[e.task].group == Some(g) { RoomToNotify(c, s, e, g); }
  }

  lemma WithinJoin(c: Config, s: State, s': State, t: nat, g: nat)
    requires WithinLimits(c, s, g) && Next(c, s, s', Joins(t))
    ensures !Sticks(c, s, Joins(t), g)
  {
  }

  lemma WithinFull(c: Config, s: State, s': State, t: nat, g: nat)
    requires WithinLimits(c, s', g) && Next(c, s, s', FindsFull(t))
    ensures !Sticks(c, s, FindsFull(t), g)
  {
  }

  lemma WithinSticks(c: Config, s: State, s': State, step: Step, g: nat)
    requires Counting(s) && Grouped(c, s) && WithinLimits(c, s, g) && WithinLimits(c, s', g) && Next(c, s, s', step)
    ensures !Sticks(c, s, step, g)
  {
    if step.Notifies? { WithinNotify(c, s, s', step.e, g); }
    else if step.Joins? { WithinJoin(c, s, s', step.t, g); }
    else if step.FindsFull? { WithinFull(c, s, s', step.t, g); }
  }

  lemma WithinMoves(c: Config, s: State, s': State, g: nat)
    requires Inv(c, s) && WithinLimits(c, s, g) && WithinLimits(c, s', g)
    ensures !StickingStep(c, s, s', g)
  {
    assert Keeps(c, s, OfCounts) && Keeps(c, s, OfGroups);
    forall step | Next(c, s, s', step) ensures !Sticks(c, s, step, g) {
      WithinSticks(c, s, s', step, g);
    }
  }

  lemma NoneStuckNoneLost(c: Config, s: State, g: nat)
    requires c.Valid() && NoneStuck(c, s, g)
    ensures LostTo(s, g) == {}
  {
    forall t ensures t !in LostTo(s, g) {
      assert !Stuck(c, s, g, t);
    }
  }

  /** A condition callers can rely on: while all tasks of a group are fit and the group
      counts no more of them than its queue can hold, none gets stuck, and every counted
      task is unfinished, waiting or being collected. */
  lemma GroupLossless(c: Config, run: seq<State>, i: nat, g: nat)
    requires Run(c, run) && i < |run| && forall k :: 0 <= k <= i ==> WithinLimits(c, run[k], g)
    ensures NoneStuck(c, run[i], g) && LostTo(run[i], g) == {}
  {
    forall k | 0 < k <= i ensures !StickingStep(c, run[k - 1], run[k], g) {
      RunSafe(c, run, k - 1);
      WithinMoves(c, run[k - 1], run[k], g);
    }
    NoneStuckWithout(c, run, i, g);
    NoneStuckNoneLost(c, run[i], g);
  }
}
