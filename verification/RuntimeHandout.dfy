/** Which tasks a group hands out, in which order, and to whom. */
module RuntimeHandout {
  import opened Common
  import opened Runtime
  import opened RuntimeInvariants
  import opened RuntimeGroups
  import opened RuntimeSafety
  import opened RuntimePhases
  import opened RuntimeStuck
  import opened RuntimeWaiting

  /** The task has been handed out to a waiting call. */
  predicate Handed(p: Phase) {
    p.Taken? || DeletedPhase(p)
  }

  // ----- the order of handing out -----------------------------------------

  /** How a step changes the queue of group `g`. */
  ghost predicate GroupQueueMoves(c: Config, s: State, s': State, step: Step, g: nat)
    requires g in s.groups && g in s'.groups
  {
    var before, after := s.groups[g].queue, s'.groups[g].queue;
    || after == before
    || (before != [] && after == before[1..])
    || (step.Notifies? && after == before + [step.e.task])
  }

  lemma QueueByCollector(s: State, s': State, step: Step, g: nat)
    requires CollectorMoves(s, s', step) && g in s.groups
    ensures g in s'.groups
    ensures var before, after := s.groups[g].queue, s'.groups[g].queue;
            after == before || (before != [] && after == before[1..])
  {
  }

  lemma GroupQueueStep(c: Config, s: State, s': State, step: Step, g: nat)
    requires Next(c, s, s', step) && g in s.groups
    ensures g in s'.groups && GroupQueueMoves(c, s, s', step, g)
  {
    if ProducerMoves(c, s, s', step) {
      if !step.Joins? { GroupsByProducer(c, s, s', step); }
    } else if ExecutorMoves(c, s, s', step) {
      if !step.Notifies? { PhasesByExecutor(c, s, s', step); }
    } else if CollectorMoves(s, s', step) {
      QueueByCollector(s, s', step, g);
    }
  }

  lemma GroupsByProducer(c: Config, s: State, s': State, step: Step)
    requires ProducerMoves(c, s, s', step) && !step.Joins?
    ensures s'.groups == s.groups
  {
    if !step.Fails? { PhasesByProducer(c, s, s', step); }
  }

  predicate InOrder(queue: seq<nat>, t: nat, u: nat) {
    exists a, b :: 0 <= a < b < |queue| && queue[a] == t && queue[b] == u
  }

  /** Task `t` of the group has finished before task `u`, and is not handed out after it. */
  ghost predicate Ahead(s: State, g: nat, t: nat, u: nat) {
    || Handed(PhaseIn(s, g, t))
    || (&& g in s.groups && PhaseIn(s, g, t).Waiting? && !Handed(PhaseIn(s, g, u))
        && (PhaseIn(s, g, u).Waiting? ==> InOrder(s.groups[g].queue, t, u)))
  }

  /** What happens to two tasks in the queue. */
  lemma OrderKept(before: seq<nat>, after: seq<nat>, t: nat, u: nat)
    requires InOrder(before, t, u) && Distinct(before) && t in after
    requires after == before || after == before[1..] || exists x :: after == before + [x]
    ensures InOrder(after, t, u)
  {
    var a, b :| 0 <= a < b < |before| && before[a] == t && before[b] == u;
    if after == before[1..] && |after| < |before| {
      var i :| 0 <= i < |after| && after[i] == t;
      assert before[i + 1] == t;
      assert after[a - 1] == t && after[b - 1] == u;
    } else {
      assert after[a] == t && after[b] == u;
    }
  }

  /** The new last task comes behind all others. */
  lemma OrderAppended(queue: seq<nat>, t: nat, u: nat)
    requires t in queue
    ensures InOrder(queue + [u], t, u)
  {
    var a :| 0 <= a < |queue| && queue[a] == t;
    assert (queue + [u])[a] == t && (queue + [u])[|queue|] == u;
  }

  /** Queues of a group before and after, as far as two waiting tasks are concerned. */
  lemma QueueOrder(before: seq<nat>, after: seq<nat>, t: nat, u: nat)
    requires t in before && t in after && Distinct(before)
    requires after == before || (before != [] && after == before[1..]) || exists x :: after == before + [x]
    requires u in before ==> InOrder(before, t, u)
    ensures u in before ==> u in after
    ensures u in after ==> InOrder(after, t, u)
  {
    if u in before {
      OrderKept(before, after, t, u);
    } else if u in after {
      var x :| after == before + [x];
      OrderAppended(before, t, u);
      assert x == u;
    }
  }

  lemma AheadKept(c: Config, s: State, s': State, g: nat, t: nat, u: nat)
    requires Inv(c, s) && Inv(c, s') && Moves(c, s, s') && Ahead(s, g, t, u)
    ensures Ahead(s', g, t, u)
  {
    var step :| Next(c, s, s', step);
    assert Keeps(c, s, OfCounts) && Keeps(c, s, OfGroups) && Keeps(c, s', OfGroups);
    PhaseAdvances(c, s, s', step, g, t);
    PhaseAdvances(c, s, s', step, g, u);
    if !Handed(PhaseIn(s', g, t)) {
      GroupQueueStep(c, s, s', step, g);
      assert GroupOk(c.limit, s, g, s.groups[g]) && GroupOk(c.limit, s', g, s'.groups[g]);
      QueueOrder(s.groups[g].queue, s'.groups[g].queue, t, u);
    }
  }

  lemma AheadAt(c: Config, run: seq<State>, i: nat, g: nat, t: nat, u: nat)
    requires Run(c, run) && 0 < i < |run| && Ahead(run[i - 1], g, t, u)
    ensures Ahead(run[i], g, t, u)
  {
    RunSafe(c, run, i - 1);
    RunSafe(c, run, i);
    assert StepAt(c, run, i);
    AheadKept(c, run[i - 1], run[i], g, t, u);
  }

  lemma {:induction false} AheadAlong(c: Config, run: seq<State>, k: nat, i: nat, g: nat, t: nat, u: nat)
    requires Run(c, run) && k <= i < |run| && Ahead(run[k], g, t, u)
    ensures Ahead(run[i], g, t, u)
  {
    if k < i {
      AheadAlong(c, run, k, i - 1, g, t, u);
      AheadAt(c, run, i, g, t, u);
    }
  }

  /** A group hands out its tasks in the order in which they finished: if one waits while
      another has not finished, or not even joined, the second is not handed out before
      the first. */
  lemma FirstFinishedFirst(c: Config, run: seq<State>, k: nat, i: nat, g: nat, t: nat, u: nat)
    requires Run(c, run) && k <= i < |run| && g in run[k].groups && PhaseIn(run[k], g, t).Waiting?
    requires PhaseIn(run[k], g, u).Unfinished? || PhaseIn(run[k], g, u).Outside?
    ensures Handed(PhaseIn(run[i], g, u)) ==> Handed(PhaseIn(run[i], g, t))
  {
    AheadAlong(c, run, k, i, g, t, u);
  }

  /** A task in the queue of its group has completed, and the instance that completed it has
      told the action: none of its instances is before that. */
  lemma WaitingDone(c: Config, run: seq<State>, i: nat, g: nat, t: nat)
    requires Run(c, run) && i < |run| && g in run[i].groups && t in run[i].groups[g].queue
    ensures t in run[i].tasks && t in run[i].attrs && run[i].attrs[t].group == Some(g)
    ensures run[i].tasks[t].state.Completed?
    ensures forall k :: 0 <= k < run[i].attrs[t].instances ==>
              Entry(t, k) in run[i].stage && !BeforeCountdown(run[i].stage[Entry(t, k)])
              && !Finishing(run[i].stage[Entry(t, k)])
  {
    RunSafe(c, run, i);
    var s := run[i];
    assert Keeps(c, s, OfStages) && Keeps(c, s, OfCounts) && Keeps(c, s, OfGroups);
    assert GroupOk(c.limit, s, g, s.groups[g]) && PhaseIn(s, g, t).Waiting?;
    SettledInstances(s, t);
  }

  lemma SettledInstances(s: State, t: nat)
    requires Staged(s) && Counting(s) && Exists(s, t) && s.tasks[t].phase.Waiting? && s.attrs[t].group.Some?
    ensures s.tasks[t].state.Completed?
    ensures forall k :: 0 <= k < s.attrs[t].instances ==>
              Entry(t, k) in s.stage && !BeforeCountdown(s.stage[Entry(t, k)]) && !Finishing(s.stage[Entry(t, k)])
  {
    assert TaskOk(s.attrs[t], s.tasks[t]);
    forall k | 0 <= k < s.attrs[t].instances
      ensures Entry(t, k) in s.stage && !BeforeCountdown(s.stage[Entry(t, k)]) && !Finishing(s.stage[Entry(t, k)])
    {
      assert Entry(t, k) in s.stage && EntryOk(s.attrs[t], s.tasks[t], k, s.stage[Entry(t, k)]);
    }
  }

  // ----- waiting for any task ---------------------------------------------

  /** A wait_any call that has seen the counter above zero. */
  predicate Past(collector: Collector) {
    collector.pc.Take? || collector.pc.Busy? || collector.pc.Help? || (collector.pc.Returned? && |collector.got| == 1)
  }

  ghost predicate AnyPast(s: State, j: nat, g: nat) {
    j in s.collectors && !s.collectors[j].all && s.collectors[j].group == g && Past(s.collectors[j])
  }

  lemma AnyStays(c: Config, s: State, s': State, step: Step, j: nat, g: nat)
    requires Collecting(s) && Next(c, s, s', step) && AnyPast(s, j, g)
    ensures AnyPast(s', j, g)
  {
    if ProducerMoves(c, s, s', step) {
      TasksByProducer(c, s, s', step);
    } else if ExecutorMoves(c, s, s', step) {
      CollectorsByExecutor(c, s, s', step);
    } else if CollectorMoves(s, s', step) {
      AnyByCollector(s, s', step, j, g);
    }
  }

  lemma AnyByCollector(s: State, s': State, step: Step, j: nat, g: nat)
    requires Collecting(s) && CollectorMoves(s, s', step) && AnyPast(s, j, g)
    ensures AnyPast(s', j, g)
  {
    assert CollectorOk(s, j, s.collectors[j]);
  }

  lemma AnyAt(c: Config, run: seq<State>, i: nat, j: nat, g: nat)
    requires Run(c, run) && 0 < i < |run| && AnyPast(run[i - 1], j, g)
    ensures AnyPast(run[i], j, g)
  {
    RunSafe(c, run, i - 1);
    assert Keeps(c, run[i - 1], OfCalls);
    assert StepAt(c, run, i);
    var step :| Next(c, run[i - 1], run[i], step);
    AnyStays(c, run[i - 1], run[i], step, j, g);
  }

  lemma {:induction false} AnyAlong(c: Config, run: seq<State>, k: nat, i: nat, j: nat, g: nat)
    requires Run(c, run) && k <= i < |run| && AnyPast(run[k], j, g)
    ensures AnyPast(run[i], j, g)
  {
    if k < i {
      AnyAlong(c, run, k, i - 1, j, g);
      AnyAt(c, run, i, j, g);
    }
  }

  /** Only at its first look can a wait_any call find that there is nothing to wait for:
      later it returns with exactly one task or not at all. */
  lemma AnyEndsWithOne(c: Config, run: seq<State>, k: nat, i: nat, j: nat)
    requires Run(c, run) && k <= i < |run| && j in run[k].collectors && !run[k].collectors[j].all
    requires !run[k].collectors[j].pc.Load? && !run[k].collectors[j].pc.Returned?
    ensures j in run[i].collectors
    ensures run[i].collectors[j].pc.Returned? ==> |run[i].collectors[j].got| == 1
  {
    AnyAlong(c, run, k, i, j, run[k].collectors[j].group);
  }

  /** The task is not in the group, will never finish for it, or other calls have got it. */
  ghost predicate Unavailable(c: Config, s: State, g: nat, j: nat, t: nat) {
    var p := PhaseIn(s, g, t);
    p.Outside? || p.Collected? || ((p.Taken? || p.Deleted?) && p.collector != j) || Stuck(c, s, g, t)
  }

  /** No task of the group is left for call `j` to collect. */
  ghost predicate NothingLeft(c: Config, s: State, g: nat, j: nat) {
    forall t :: Unavailable(c, s, g, j, t)
  }

  /** No task has joined the group in between. */
  ghost predicate NoneJoins(s: State, s': State, g: nat) {
    forall t :: PhaseIn(s, g, t).Outside? ==> PhaseIn(s', g, t).Outside?
  }

  ghost predicate Starves(c: Config, s: State, j: nat, g: nat) {
    && j in s.collectors && !s.collectors[j].all && s.collectors[j].group == g && g in s.groups
    && (s.collectors[j].pc.Take? || s.collectors[j].pc.Help?) && NothingLeft(c, s, g, j)
  }

  lemma StillUnavailable(c: Config, s: State, s': State, step: Step, g: nat, j: nat, t: nat)
    requires Staged(s) && Counting(s) && Grouped(c, s) && Named(c, s') && Grouped(c, s') && Next(c, s, s', step)
    requires Unavailable(c, s, g, j, t) && (PhaseIn(s, g, t).Outside? ==> PhaseIn(s', g, t).Outside?)
    ensures Unavailable(c, s', g, j, t)
  {
    if Stuck(c, s, g, t) { StuckKept(c, s, s', step, g, t); } else { PhaseAdvances(c, s, s', step, g, t); }
  }

  lemma LeftNothing(c: Config, s: State, s': State, step: Step, g: nat, j: nat)
    requires Inv(c, s) && Inv(c, s') && Next(c, s, s', step) && NothingLeft(c, s, g, j) && NoneJoins(s, s', g)
    ensures NothingLeft(c, s', g, j)
  {
    assert Keeps(c, s, OfStages) && Keeps(c, s, OfCounts) && Keeps(c, s, OfGroups);
    assert Keeps(c, s', OfNames) && Keeps(c, s', OfGroups);
    forall t ensures Unavailable(c, s', g, j, t) {
      StillUnavailable(c, s, s', step, g, j, t);
    }
  }

  lemma EmptyQueue(c: Config, s: State, g: nat, j: nat)
    requires Inv(c, s) && g in s.groups && NothingLeft(c, s, g, j)
    ensures s.groups[g].queue == []
  {
    assert Keeps(c, s, OfStages) && Keeps(c, s, OfCounts) && Keeps(c, s, OfGroups);
    if s.groups[g].queue != [] {
      var t := s.groups[g].queue[0];
      HeadWaits(c, s, g);
      assert Unavailable(c, s, g, j, t);
      StuckCounted(c, s, g, t);
    }
  }

  lemma StarvesByCollector(s: State, s': State, step: Step, j: nat, g: nat)
    requires CollectorMoves(s, s', step) && j in s.collectors && !s.collectors[j].all && s.collectors[j].group == g
    requires (s.collectors[j].pc.Take? || s.collectors[j].pc.Help?) && g in s.groups && s.groups[g].queue == []
    ensures j in s'.collectors && !s'.collectors[j].all && s'.collectors[j].group == g && g in s'.groups
    ensures s'.collectors[j].pc.Take? || s'.collectors[j].pc.Help?
  {
  }

  lemma StarvesOn(c: Config, s: State, s': State, j: nat, g: nat)
    requires Inv(c, s) && Inv(c, s') && Moves(c, s, s') && Starves(c, s, j, g) && NoneJoins(s, s', g)
    ensures Starves(c, s', j, g)
  {
    var step :| Next(c, s, s', step);
    LeftNothing(c, s, s', step, g, j);
    EmptyQueue(c, s, g, j);
    GroupQueueStep(c, s, s', step, g);
    if ProducerMoves(c, s, s', step) { TasksByProducer(c, s, s', step); }
    else if ExecutorMoves(c, s, s', step) { CollectorsByExecutor(c, s, s', step); }
    else if CollectorMoves(s, s', step) { StarvesByCollector(s, s', step, j, g); }
  }

  lemma PhasesAt(c: Config, path: seq<State>, i: nat, g: nat, t: nat)
    requires Path(c, path) && 0 < i < |path| && Inv(c, path[i - 1]) && !PhaseIn(path[i - 1], g, t).Outside?
    ensures !PhaseIn(path[i], g, t).Outside?
  {
    assert Keeps(c, path[i - 1], OfCounts) && Keeps(c, path[i - 1], OfGroups);
    assert StepAt(c, path, i);
    var step :| Next(c, path[i - 1], path[i], step);
    PhaseAdvances(c, path[i - 1], path[i], step, g, t);
  }

  lemma {:induction false} PhasesAlong(c: Config, path: seq<State>, k: nat, i: nat, g: nat, t: nat)
    requires Path(c, path) && k <= i < |path| && Inv(c, path[k]) && !PhaseIn(path[k], g, t).Outside?
    ensures !PhaseIn(path[i], g, t).Outside?
  {
    if k < i {
      PhasesAlong(c, path, k, i - 1, g, t);
      SafeAlong(c, path, k, i - 1);
      PhasesAt(c, path, i, g, t);
    }
  }

  /** If no task joins up to a state, none joins up to the one before, and none then. */
  lemma NoneJoinsBefore(c: Config, path: seq<State>, k: nat, i: nat, g: nat)
    requires Path(c, path) && k < i < |path| && Inv(c, path[k]) && NoneJoins(path[k], path[i], g)
    ensures NoneJoins(path[k], path[i - 1], g) && NoneJoins(path[i - 1], path[i], g)
  {
    SafeAlong(c, path, k, i - 1);
    forall t ensures !PhaseIn(path[i - 1], g, t).Outside? ==> !PhaseIn(path[i], g, t).Outside? {
      if !PhaseIn(path[i - 1], g, t).Outside? { PhasesAt(c, path, i, g, t); }
    }
    forall t ensures !PhaseIn(path[k], g, t).Outside? ==> !PhaseIn(path[i - 1], g, t).Outside? {
      if !PhaseIn(path[k], g, t).Outside? { PhasesAlong(c, path, k, i - 1, g, t); }
    }
  }

  lemma StarvesAt(c: Config, path: seq<State>, i: nat, j: nat, g: nat)
    requires Path(c, path) && 0 < i < |path| && Inv(c, path[i - 1]) && Starves(c, path[i - 1], j, g)
    requires NoneJoins(path[i - 1], path[i], g)
    ensures Starves(c, path[i], j, g)
  {
    SafeAlong(c, path, i - 1, i);
    assert StepAt(c, path, i);
    StarvesOn(c, path[i - 1], path[i], j, g);
  }

  lemma {:induction false} StarvesAlong(c: Config, path: seq<State>, k: nat, i: nat, j: nat, g: nat)
    requires Path(c, path) && k <= i < |path| && Inv(c, path[k]) && Starves(c, path[k], j, g)
    requires NoneJoins(path[k], path[i], g)
    ensures Starves(c, path[i], j, g)
  {
    if k < i {
      NoneJoinsBefore(c, path, k, i, g);
      StarvesAlong(c, path, k, i - 1, j, g);
      SafeAlong(c, path, k, i - 1);
      StarvesAt(c, path, i, j, g);
    }
  }

  /** A wait_any call that has seen the counter above zero and for which nothing is left does
      not return unless another task joins the group: it never looks at the counter again. */
  lemma AnyStarves(c: Config, run: seq<State>, k: nat, i: nat, j: nat, g: nat)
    requires Run(c, run) && k <= i < |run| && Starves(c, run[k], j, g) && NoneJoins(run[k], run[i], g)
    ensures Starves(c, run[i], j, g)
  {
    RunSafe(c, run, k);
    StarvesAlong(c, run, k, i, j, g);
  }
}
