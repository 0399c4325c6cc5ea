/** How a task moves towards and through its group. */
module RuntimePhases {
  import opened Common
  import opened Runtime
  import opened RuntimeInvariants
  import opened RuntimeGroups
  import opened RuntimeSafety

  /** The life of a task in its group, one step at a time. */
  predicate PhaseMoves(p: Phase, q: Phase) {
    || p == q
    || (p.Outside? && q.Unfinished?)
    || (p.Unfinished? && (q.Waiting? || q.Lost?))
    || (p.Waiting? && q.Taken?)
    || (p.Taken? && q == Deleted(p.collector))
    || (p.Deleted? && q == Collected(p.collector))
  }

  /** A start fails after the group has counted its task, or a finished task finds the
      queue of its group full. */
  ghost predicate Loses(c: Config, s: State, step: Step, g: nat) {
    match step
    case Fails(t) => t in s.attrs && s.attrs[t].group == Some(g)
    case Notifies(e) =>
      e.task in s.attrs && s.attrs[e.task].group == Some(g) && g in s.groups && |s.groups[g].queue| >= c.limit
    case _ => false
  }

  ghost predicate PhaseSteps(c: Config, s: State, s': State, step: Step, g: nat, t: nat) {
    && PhaseMoves(PhaseIn(s, g, t), PhaseIn(s', g, t))
    && (PhaseIn(s', g, t).Lost? && !PhaseIn(s, g, t).Lost? ==> Loses(c, s, step, g))
  }

  lemma PhaseByJoin(c: Config, s: State, s': State, u: nat, g: nat, t: nat)
    requires JoinStep(s, s', u) && s.tasks[u].phase.Outside?
    ensures PhaseSteps(c, s, s', Joins(u), g, t)
  {
    JoinEffect(s, s', u);
  }

  lemma PhaseByFail(c: Config, s: State, s': State, u: nat, g: nat, t: nat)
    requires FailStep(s, s', u) && (s.attrs[u].group.Some? ==> s.tasks[u].phase.Unfinished?)
    ensures PhaseSteps(c, s, s', Fails(u), g, t)
  {
  }

  lemma PhaseByNotify(c: Config, s: State, s': State, e: Entry, g: nat, t: nat)
    requires NotifyStep(c, s, s', e) && s.tasks[e.task].phase.Unfinished?
    ensures PhaseSteps(c, s, s', Notifies(e), g, t)
  {
  }

  lemma PhaseByTake(c: Config, s: State, s': State, j: nat, g: nat, t: nat)
    requires TakeStep(s, s', j) && s.tasks[s.groups[s.collectors[j].group].queue[0]].phase.Waiting?
    ensures PhaseSteps(c, s, s', Takes(j), g, t)
  {
  }

  lemma PhaseByDelete(c: Config, s: State, s': State, j: nat, g: nat, t: nat)
    requires DeleteStep(s, s', j)
    ensures PhaseSteps(c, s, s', Deletes(j), g, t)
  {
  }

  lemma PhaseByUncount(c: Config, s: State, s': State, j: nat, g: nat, t: nat)
    requires UncountStep(s, s', j)
    ensures PhaseSteps(c, s, s', Uncounts(j), g, t)
  {
  }

  lemma PhaseByCreation(c: Config, s: State, s': State, u: nat, attr: Attributes, g: nat, t: nat)
    requires CreateStep(c, s, s', u, attr)
    ensures PhaseSteps(c, s, s', CreateTask(u, attr), g, t)
  {
  }

  lemma PhaseOfProducer(c: Config, s: State, s': State, step: Step, g: nat, t: nat)
    requires Counting(s) && ProducerMoves(c, s, s', step)
    ensures PhaseSteps(c, s, s', step, g, t)
  {
    if step.Joins? || step.Fails? {
      assert TaskOk(s.attrs[step.t], s.tasks[step.t]);
      if step.Joins? { PhaseByJoin(c, s, s', step.t, g, t); } else { PhaseByFail(c, s, s', step.t, g, t); }
    } else {
      PhasesByProducer(c, s, s', step);
    }
  }

  lemma PhaseOfExecutor(c: Config, s: State, s': State, step: Step, g: nat, t: nat)
    requires Counting(s) && ExecutorMoves(c, s, s', step)
    ensures PhaseSteps(c, s, s', step, g, t)
  {
    if step.Notifies? {
      var e := step.e;
      assert TaskOk(s.attrs[e.task], s.tasks[e.task])
             && EntryOk(s.attrs[e.task], s.tasks[e.task], e.instance, s.stage[e]);
      PhaseByNotify(c, s, s', e, g, t);
    } else {
      PhasesByExecutor(c, s, s', step);
    }
  }

  lemma PhaseOfCollector(c: Config, s: State, s': State, step: Step, g: nat, t: nat)
    requires Grouped(c, s) && CollectorMoves(s, s', step)
    ensures PhaseSteps(c, s, s', step, g, t)
  {
    if step.Takes? {
      HeadWaits(c, s, s.collectors[step.j].group);
      PhaseByTake(c, s, s', step.j, g, t);
    }
    else if step.Deletes? { PhaseByDelete(c, s, s', step.j, g, t); }
    else if step.Uncounts? { PhaseByUncount(c, s, s', step.j, g, t); }
    else { assert PhasesUntouched(s, s'); }
  }

  /** Every step moves every task along its life in every group, and only a losing step
      loses one. */
  lemma PhaseAdvances(c: Config, s: State, s': State, step: Step, g: nat, t: nat)
    requires Counting(s) && Grouped(c, s) && Next(c, s, s', step)
    ensures PhaseSteps(c, s, s', step, g, t)
  {
    if ProducerMoves(c, s, s', step) { PhaseOfProducer(c, s, s', step, g, t); }
    else if ExecutorMoves(c, s, s', step) { PhaseOfExecutor(c, s, s', step, g, t); }
    else if CollectorMoves(s, s', step) { PhaseOfCollector(c, s, s', step, g, t); }
    else if step.CreateTask? { PhaseByCreation(c, s, s', step.t, step.attr, g, t); }
    else { assert PhasesUntouched(s, s'); }
  }
}
