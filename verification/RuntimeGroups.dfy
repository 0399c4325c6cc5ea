/** The accounting of task groups. */
module RuntimeGroups {
  import opened Common
  import opened Runtime

  /** Phases in which the group's counter stands for the task. */
  predicate CountedPhase(p: Phase) {
    !p.Outside? && !p.Collected?
  }

  predicate DeletedPhase(p: Phase) {
    p.Deleted? || p.Collected?
  }

  /** How task `t` stands towards group `g`. */
  ghost function PhaseIn(s: State, g: nat, t: nat): Phase {
    if t in s.tasks && t in s.attrs && s.attrs[t].group == Some(g) then s.tasks[t].phase else Outside
  }

  ghost predicate GroupOk(limit: nat, s: State, g: nat, group: Group) {
    && group.numTasks == |group.open|
    && Distinct(group.queue) && |group.queue| <= limit
    && Distinct(group.collected)
    && (forall t :: t in group.open <==> CountedPhase(PhaseIn(s, g, t)))
    && (forall t :: t in group.queue <==> PhaseIn(s, g, t).Waiting?)
    && (forall t :: t in group.collected <==> DeletedPhase(PhaseIn(s, g, t)))
  }

  ghost predicate Grouped(c: Config, s: State) {
    forall g :: g in s.groups ==> GroupOk(c.limit, s, g, s.groups[g])
  }

  /** A collector that is busy with a task has taken it out of its group's queue, and
      every task that left the queue was taken by a collector of its group. */
  ghost predicate Collecting(s: State) {
    && (forall j :: j in s.collectors ==> CollectorOk(s, j, s.collectors[j]))
    && (forall g, t :: TakenOk(s, g, t, PhaseIn(s, g, t)))
  }

  ghost predicate TakenOk(s: State, g: nat, t: nat, p: Phase) {
    && (p.Taken? || DeletedPhase(p) ==> p.collector in s.collectors && s.collectors[p.collector].group == g)
    && (p.Taken? || p.Deleted? ==> s.collectors[p.collector].pc == Busy(t))
  }

  predicate DeletedBy(p: Phase, j: nat) {
    p == Deleted(j) || p == Collected(j)
  }

  ghost predicate CollectorOk(s: State, j: nat, collector: Collector) {
    && collector.group in s.groups
    && (collector.pc.Busy? ==>
          var p := PhaseIn(s, collector.group, collector.pc.task);
          p == Taken(j) || p == Deleted(j))
    && Distinct(collector.got)
    && (forall t :: t in collector.got <==> DeletedBy(PhaseIn(s, collector.group, t), j))
    && (!collector.all ==> GotAtMostOne(s, collector))
  }

  /** A wait_any call collects one task, just before it returns. */
  ghost predicate GotAtMostOne(s: State, collector: Collector) {
    match collector.pc
    case Busy(t) => collector.got == if PhaseIn(s, collector.group, t).Deleted? then [t] else []
    case Returned => |collector.got| <= 1
    case _ => collector.got == []
  }

  ghost predicate PhasesUntouched(s: State, s': State) {
    forall g, t :: PhaseIn(s', g, t) == PhaseIn(s, g, t)
  }

  lemma UntouchedGrouped(c: Config, s: State, s': State)
    requires Grouped(c, s) && PhasesUntouched(s, s') && s'.groups == s.groups
    ensures Grouped(c, s')
  {
  }

  lemma UntouchedCollecting(s: State, s': State)
    requires Collecting(s) && PhasesUntouched(s, s') && s'.groups == s.groups && s'.collectors == s.collectors
    ensures Collecting(s')
  {
  }

  /** The step changes the phase of task `t` of group `g` to `p`, and nothing else
      about groups except the record of `g`. */
  ghost predicate PhaseChanges(s: State, s': State, g: nat, t: nat, p: Phase) {
    && g in s.groups && g in s'.groups && s'.groups == s.groups[g := s'.groups[g]]
    && forall h, u :: PhaseIn(s', h, u) == if h == g && u == t then p else PhaseIn(s, h, u)
  }

  lemma ChangedGrouped(c: Config, s: State, s': State, g: nat, t: nat, p: Phase)
    requires Grouped(c, s) && PhaseChanges(s, s', g, t, p)
    requires GroupOk(c.limit, s', g, s'.groups[g])
    ensures Grouped(c, s')
  {
  }

  lemma ChangedCollecting(s: State, s': State, g: nat, t: nat, p: Phase)
    requires Collecting(s) && PhaseChanges(s, s', g, t, p)
    requires !PhaseIn(s, g, t).Taken? && !DeletedPhase(PhaseIn(s, g, t)) && !p.Taken? && !DeletedPhase(p)
    requires s'.collectors == s.collectors
    ensures Collecting(s')
  {
  }

  /** Only the task's record and the record of its group change. */
  lemma TaskPhase(s: State, s': State, g: nat, t: nat)
    requires Exists(s, t) && s.attrs[t].group == Some(g) && g in s.groups && t in s'.tasks && g in s'.groups
    requires s'.attrs == s.attrs && s'.tasks == s.tasks[t := s'.tasks[t]] && s'.groups == s.groups[g := s'.groups[g]]
    ensures PhaseChanges(s, s', g, t, s'.tasks[t].phase)
  {
  }

  // ----- the steps that concern groups ------------------------------------

  lemma JoinGroup(c: Config, s: State, s': State, t: nat, g: nat)
    requires Grouped(c, s) && JoinStep(s, s', t) && s.tasks[t].phase.Outside? && s.attrs[t].group == Some(g)
    ensures Grouped(c, s') && PhaseChanges(s, s', g, t, Unfinished)
  {
    TaskPhase(s, s', g, t);
    assert PhaseIn(s, g, t) == Outside;
    assert t !in s.groups[g].open;
    ChangedGrouped(c, s, s', g, t, Unfinished);
  }

  lemma PhasesGrouped(c: Config, s: State, s': State)
    requires Grouped(c, s) && Collecting(s) && PhasesUntouched(s, s') && s'.groups == s.groups
    requires s'.collectors == s.collectors
    ensures Grouped(c, s') && Collecting(s')
  {
    UntouchedGrouped(c, s, s');
    UntouchedCollecting(s, s');
  }

  lemma JoinAlone(c: Config, s: State, s': State, t: nat)
    requires Grouped(c, s) && Collecting(s) && JoinStep(s, s', t) && s.attrs[t].group.None?
    ensures Grouped(c, s') && Collecting(s')
  {
    assert PhasesUntouched(s, s');
    PhasesGrouped(c, s, s');
  }

  lemma JoinCollecting(s: State, s': State, t: nat, g: nat)
    requires Collecting(s) && JoinStep(s, s', t) && s.tasks[t].phase.Outside? && s.attrs[t].group == Some(g)
    requires PhaseChanges(s, s', g, t, Unfinished)
    ensures Collecting(s')
  {
    assert PhaseIn(s, g, t) == Outside;
    ChangedCollecting(s, s', g, t, Unfinished);
  }

  lemma JoinGrouped(c: Config, s: State, s': State, t: nat)
    requires Grouped(c, s) && Collecting(s) && JoinStep(s, s', t) && s.tasks[t].phase.Outside?
    ensures Grouped(c, s') && Collecting(s')
  {
    match s.attrs[t].group
    case None => JoinAlone(c, s, s', t);
    case Some(g) =>
      JoinGroup(c, s, s', t, g);
      JoinCollecting(s, s', t, g);
  }

  lemma FailGroup(c: Config, s: State, s': State, t: nat, g: nat)
    requires Grouped(c, s) && FailStep(s, s', t) && s.tasks[t].phase.Unfinished? && s.attrs[t].group == Some(g)
    requires g in s.groups
    ensures Grouped(c, s') && PhaseChanges(s, s', g, t, Lost)
  {
    assert s'.groups == s.groups[g := s'.groups[g]];
    TaskPhase(s, s', g, t);
    assert PhaseIn(s, g, t) == Unfinished;
    ChangedGrouped(c, s, s', g, t, Lost);
  }

  lemma FailGrouped(c: Config, s: State, s': State, t: nat)
    requires Grouped(c, s) && Collecting(s) && FailStep(s, s', t)
    requires s.attrs[t].group.Some? ==> s.tasks[t].phase.Unfinished? && s.attrs[t].group.value in s.groups
    ensures Grouped(c, s') && Collecting(s')
  {
    match s.attrs[t].group
    case None =>
      assert PhasesUntouched(s, s');
      PhasesGrouped(c, s, s');
    case Some(g) =>
      FailGroup(c, s, s', t, g);
      assert PhaseIn(s, g, t) == Unfinished;
      ChangedCollecting(s, s', g, t, Lost);
  }

  lemma NotifyGroup(c: Config, s: State, s': State, e: Entry, g: nat)
    requires Grouped(c, s) && NotifyStep(c, s, s', e) && s.tasks[e.task].phase.Unfinished?
    requires s.attrs[e.task].group == Some(g)
    ensures Grouped(c, s') && PhaseChanges(s, s', g, e.task, s'.tasks[e.task].phase)
  {
    TaskPhase(s, s', g, e.task);
    assert PhaseIn(s, g, e.task) == Unfinished;
    assert GroupOk(c.limit, s, g, s.groups[g]);
    ChangedGrouped(c, s, s', g, e.task, s'.tasks[e.task].phase);
  }

  lemma NotifyGrouped(c: Config, s: State, s': State, e: Entry)
    requires Grouped(c, s) && Collecting(s) && NotifyStep(c, s, s', e) && s.tasks[e.task].phase.Unfinished?
    ensures Grouped(c, s') && Collecting(s')
  {
    var g := s.attrs[e.task].group.value;
    NotifyGroup(c, s, s', e, g);
    assert PhaseIn(s, g, e.task) == Unfinished;
    ChangedCollecting(s, s', g, e.task, s'.tasks[e.task].phase);
  }

  /** The head of a group's queue is a waiting task of the group. */
  lemma HeadWaits(c: Config, s: State, g: nat)
    requires Grouped(c, s) && g in s.groups && s.groups[g].queue != []
    ensures PhaseIn(s, g, s.groups[g].queue[0]).Waiting?
  {
    assert s.groups[g].queue[0] in s.groups[g].queue;
  }

  lemma TakeGroup(c: Config, s: State, s': State, j: nat)
    requires Grouped(c, s) && TakeStep(s, s', j)
    ensures var g := s.collectors[j].group; var t := s.groups[g].queue[0];
            Grouped(c, s') && PhaseIn(s, g, t).Waiting? && PhaseChanges(s, s', g, t, Taken(j))
  {
    var g := s.collectors[j].group;
    var t := s.groups[g].queue[0];
    HeadWaits(c, s, g);
    TaskPhase(s, s', g, t);
    assert GroupOk(c.limit, s, g, s.groups[g]);
    assert s.groups[g].queue == [t] + s'.groups[g].queue;
    ChangedGrouped(c, s, s', g, t, Taken(j));
  }

  lemma TakeCollecting(s: State, s': State, j: nat)
    requires Collecting(s) && TakeStep(s, s', j)
    requires var g := s.collectors[j].group; var t := s.groups[g].queue[0];
             PhaseIn(s, g, t).Waiting? && PhaseChanges(s, s', g, t, Taken(j))
    ensures Collecting(s')
  {
    forall i | i in s'.collectors ensures CollectorOk(s', i, s'.collectors[i]) {
      assert CollectorOk(s, i, s.collectors[i]);
    }
  }

  lemma TakeGrouped(c: Config, s: State, s': State, j: nat)
    requires Grouped(c, s) && Collecting(s) && TakeStep(s, s', j)
    ensures Grouped(c, s') && Collecting(s')
  {
    TakeGroup(c, s, s', j);
    TakeCollecting(s, s', j);
  }

  lemma DeleteGroup(c: Config, s: State, s': State, j: nat)
    requires Grouped(c, s) && DeleteStep(s, s', j)
    requires PhaseIn(s, s.collectors[j].group, s.collectors[j].pc.task) == Taken(j)
    ensures Grouped(c, s') && PhaseChanges(s, s', s.collectors[j].group, s.collectors[j].pc.task, Deleted(j))
  {
    var g := s.collectors[j].group;
    var t := s.collectors[j].pc.task;
    TaskPhase(s, s', g, t);
    assert GroupOk(c.limit, s, g, s.groups[g]);
    ChangedGrouped(c, s, s', g, t, Deleted(j));
  }

  /** The call that deletes a task has got it; the other calls are as before. */
  lemma DeleteCalls(s: State, s': State, j: nat, i: nat)
    requires Collecting(s) && DeleteStep(s, s', j) && i in s.collectors
    requires PhaseIn(s, s.collectors[j].group, s.collectors[j].pc.task) == Taken(j)
    requires PhaseChanges(s, s', s.collectors[j].group, s.collectors[j].pc.task, Deleted(j))
    ensures CollectorOk(s', i, s'.collectors[i])
  {
    assert CollectorOk(s, i, s.collectors[i]);
  }

  lemma DeleteCollecting(s: State, s': State, j: nat)
    requires Collecting(s) && DeleteStep(s, s', j)
    requires PhaseIn(s, s.collectors[j].group, s.collectors[j].pc.task) == Taken(j)
    requires PhaseChanges(s, s', s.collectors[j].group, s.collectors[j].pc.task, Deleted(j))
    ensures Collecting(s')
  {
    forall i | i in s'.collectors ensures CollectorOk(s', i, s'.collectors[i]) {
      DeleteCalls(s, s', j, i);
    }
  }

  lemma DeleteGrouped(c: Config, s: State, s': State, j: nat)
    requires Grouped(c, s) && Collecting(s) && DeleteStep(s, s', j)
    ensures Grouped(c, s') && Collecting(s')
  {
    assert CollectorOk(s, j, s.collectors[j]);
    DeleteGroup(c, s, s', j);
    DeleteCollecting(s, s', j);
  }

  lemma UncountGroup(c: Config, s: State, s': State, j: nat)
    requires Grouped(c, s) && UncountStep(s, s', j)
    requires PhaseIn(s, s.collectors[j].group, s.collectors[j].pc.task) == Deleted(j)
    ensures Grouped(c, s') && PhaseChanges(s, s', s.collectors[j].group, s.collectors[j].pc.task, Collected(j))
  {
    var g := s.collectors[j].group;
    var t := s.collectors[j].pc.task;
    TaskPhase(s, s', g, t);
    assert GroupOk(c.limit, s, g, s.groups[g]) && t in s.groups[g].open;
    ChangedGrouped(c, s, s', g, t, Collected(j));
  }

  lemma UncountCollecting(s: State, s': State, j: nat)
    requires Collecting(s) && UncountStep(s, s', j)
    requires PhaseChanges(s, s', s.collectors[j].group, s.collectors[j].pc.task, Collected(j))
    ensures Collecting(s')
  {
    forall i | i in s'.collectors ensures CollectorOk(s', i, s'.collectors[i]) {
      assert CollectorOk(s, i, s.collectors[i]);
    }
  }

  lemma UncountGrouped(c: Config, s: State, s': State, j: nat)
    requires Grouped(c, s) && Collecting(s) && UncountStep(s, s', j)
    ensures Grouped(c, s') && Collecting(s')
  {
    assert CollectorOk(s, j, s.collectors[j]);
    UncountGroup(c, s, s', j);
    UncountCollecting(s, s', j);
  }

  lemma OpenCollecting(s: State, s': State, j: nat, g: nat, all: bool)
    requires Collecting(s) && OpenStep(s, s', j, g, all)
    ensures Collecting(s')
  {
    assert PhasesUntouched(s, s');
    forall i | i in s'.collectors ensures CollectorOk(s', i, s'.collectors[i]) {
      if i == j {
        assert forall t :: TakenOk(s, g, t, PhaseIn(s, g, t));
      } else {
        assert CollectorOk(s, i, s.collectors[i]);
      }
    }
  }
}
