/** What every step of the task runtime keeps. */
module RuntimeInvariants {
  import opened Common
  import opened Runtime

  // ----- stages -----------------------------------------------------------

  predicate BeforeCountdown(st: Stage) {
    !st.Settling? && !st.Done?
  }

  predicate PastPush(st: Stage) {
    st.Queued? || st.Popped? || st.Executing? || st.Settling? || st.Done?
  }

  predicate PastClaim(st: Stage) {
    st.Executing? || st.Settling? || st.Done?
  }

  /** After the countdown that read 1. */
  predicate Finishing(st: Stage) {
    st.Settling? && st.spc != Release(false) && !st.spc.Report?
  }

  /** Counted by the action. */
  predicate InFlight(st: Stage) {
    st.Counted? || st.Queued? || st.Popped? || st.Executing? || (st.Settling? && !st.spc.Notify? && !st.spc.Report?)
  }

  /** The producer counts and pushes the instances one after the other. */
  predicate ProducedSoFar(st: Stage, k: nat, pc: ProducerPc) {
    match pc
    case Join => st.Fresh?
    case Publish => st.Fresh?
    case Count(i) => if k < i then PastPush(st) else st.Fresh?
    case Aim(i) => if k < i then PastPush(st) else if k == i then st.Counted? else st.Fresh?
    case Push(i, _) => if k < i then PastPush(st) else if k == i then st.Counted? else st.Fresh?
    case Rollback => st.Counted?
    case Fail => st.Abandoned?
    case Started => PastPush(st)
    case Failed => st.Abandoned? || st.Fresh?
  }

  // ----- the countdown, the instance numbers and the task states ----------

  ghost predicate EntryOk(attr: Attributes, task: Task, k: nat, st: Stage) {
    && ProducedSoFar(st, k, task.producer)
    && (k in task.pending <==> BeforeCountdown(st))
    && (k in task.handed <==> PastClaim(st))
    && (st.Executing? ==> st.number < |task.handed| && task.handed[st.number] == k)
    && (Finishing(st) <==> task.finisher == Some(k))
    && (st.Settling? && (st.spc == Release(true) || st.spc.Notify?) ==> task.state == Completed)
    && (st.Settling? && st.spc.Notify? ==> attr.group.Some?)
  }

  ghost predicate TaskOk(attr: Attributes, task: Task) {
    && task.todo == |task.pending|
    && (forall k :: k in task.pending ==> k < attr.instances)
    && task.current == |task.handed| && Distinct(task.handed)
    && (forall k :: k in task.handed ==> k < attr.instances)
    && task.lasts == (if task.pending == {} && attr.instances > 0 then 1 else 0)
    && (task.finisher.Some? ==> task.pending == {} && task.finisher.value < attr.instances
                                && (attr.group.Some? ==> task.phase.Unfinished?))
    && (task.phase.Unfinished? && task.pending == {} && attr.instances > 0 ==> task.finisher.Some?)
    && ProducerOk(attr, task)
    && StateOk(attr, task)
  }

  ghost predicate ProducerOk(attr: Attributes, task: Task) {
    && (task.state.Prenatal? <==> task.producer.Join? || task.producer.Publish?)
    && (task.producer.Count? ==> task.producer.k <= attr.instances)
    && (task.producer.Aim? || task.producer.Push? ==> task.producer.k < attr.instances)
    && (task.producer.Rollback? || task.producer.Fail? ==> attr.instances == 1 && task.pending != {})
    && (task.producer.Failed? ==> task.state.Error?)
    && (task.producer.Join? || task.producer.Publish? || task.producer.Failed? ==>
        task.pending != {} || attr.instances == 0)
    && (!attr.accepted ==> task.producer.Join? || task.producer.Publish? || task.producer.Failed?)
  }

  ghost predicate StateOk(attr: Attributes, task: Task) {
    && (task.state.Completed? ==> task.pending == {} && attr.instances > 0)
    && (task.state.Error? ==> task.producer.Failed? || task.phase.Deleted? || task.phase.Collected?)
    && (task.phase.Waiting? || task.phase.Taken? ==> task.state.Completed?)
    && (task.phase.Deleted? || task.phase.Collected? ==> task.state.Error? && task.pending == {} && attr.instances > 0)
    && (task.phase.Outside? <==> attr.group.None? || task.producer.Join?)
    && (task.phase.Unfinished? ==> !task.producer.Failed?)
    && (task.phase.Lost? ==> task.producer.Failed? || task.state.Completed?)
  }

  ghost predicate Counting(s: State) {
    && (forall t :: t in s.tasks && t in s.attrs ==> TaskOk(s.attrs[t], s.tasks[t]))
    && (forall e :: e in s.stage && e.task in s.tasks && e.task in s.attrs ==>
          EntryOk(s.attrs[e.task], s.tasks[e.task], e.instance, s.stage[e]))
  }

  /** Every instance of every task has a stage. */
  ghost predicate Staged(s: State) {
    && s.attrs.Keys == s.tasks.Keys
    && (forall e :: e in s.stage <==> e.task in s.attrs && e.instance < s.attrs[e.task].instances)
  }

  /** An instance that was pushed and has not counted down belongs to a task that
      is scheduled or running. */
  lemma LiveState(attr: Attributes, task: Task, k: nat, st: Stage)
    requires TaskOk(attr, task) && EntryOk(attr, task, k, st)
    requires PastPush(st) && BeforeCountdown(st)
    ensures task.state.Scheduled? || task.state.Running?
  {
  }

  lemma NewTaskOk(attr: Attributes)
    ensures TaskOk(attr, NewTask(attr))
    ensures forall k: nat :: k < attr.instances ==> EntryOk(attr, NewTask(attr), k, Fresh)
  {
    assert attr.instances > 0 ==> 0 in Below(attr.instances);
  }

  lemma CreateCounting(c: Config, s: State, s': State, t: nat, attr: Attributes)
    requires (forall e :: e in s.stage ==> e.task in s.attrs) && Counting(s) && CreateStep(c, s, s', t, attr)
    ensures Counting(s')
  {
    NewTaskOk(attr);
    forall e | e in s'.stage && e.task in s'.tasks && e.task in s'.attrs
      ensures EntryOk(s'.attrs[e.task], s'.tasks[e.task], e.instance, s'.stage[e])
    {
      if e.task != t { assert EntryOk(s.attrs[e.task], s.tasks[e.task], e.instance, s.stage[e]); }
    }
  }

  /** Only the record of task `t` changes, which its instances do not notice. */
  lemma TaskCounting(s: State, s': State, t: nat)
    requires Counting(s) && Exists(s, t) && t in s'.tasks
    requires s'.stage == s.stage && s'.attrs == s.attrs && s'.tasks == s.tasks[t := s'.tasks[t]]
    requires TaskOk(s.attrs[t], s'.tasks[t])
    requires forall k, st :: EntryOk(s.attrs[t], s.tasks[t], k, st) ==> EntryOk(s.attrs[t], s'.tasks[t], k, st)
    ensures Counting(s')
  {
    forall e | e in s'.stage && e.task in s'.tasks && e.task in s'.attrs
      ensures EntryOk(s'.attrs[e.task], s'.tasks[e.task], e.instance, s'.stage[e])
    {
      assert EntryOk(s.attrs[e.task], s.tasks[e.task], e.instance, s.stage[e]);
    }
  }

  lemma JoinCounting(s: State, s': State, t: nat)
    requires Counting(s) && JoinStep(s, s', t)
    ensures Counting(s')
  {
    assert TaskOk(s.attrs[t], s.tasks[t]);
    TaskCounting(s, s', t);
  }

  lemma PublishCounting(s: State, s': State, t: nat)
    requires Counting(s) && PublishStep(s, s', t)
    ensures Counting(s')
  {
  }

  lemma CountCounting(s: State, s': State, t: nat)
    requires Counting(s) && CountStep(s, s', t) && Entry(t, s.tasks[t].producer.k) in s.stage
    ensures Counting(s')
  {
  }

  lemma AimCounting(c: Config, s: State, s': State, t: nat, q: QueueId)
    requires Counting(s) && AimStep(c, s, s', t, q)
    ensures Counting(s')
  {
    assert TaskOk(s.attrs[t], s.tasks[t]);
    TaskCounting(s, s', t);
  }

  lemma PushCounting(c: Config, s: State, s': State, t: nat)
    requires Counting(s) && PushStep(c, s, s', t) && Entry(t, s.tasks[t].producer.k) in s.stage
    ensures Counting(s')
  {
  }

  lemma FullCounting(c: Config, s: State, s': State, t: nat)
    requires Counting(s) && FullStep(c, s, s', t) && Entry(t, 0) in s.stage
    ensures Counting(s')
  {
  }

  lemma RollbackCounting(s: State, s': State, t: nat)
    requires Counting(s) && RollbackStep(s, s', t) && Entry(t, 0) in s.stage
    ensures Counting(s')
  {
  }

  lemma FailCounting(s: State, s': State, t: nat)
    requires Counting(s) && FailStep(s, s', t)
    ensures Counting(s')
  {
  }

  lemma StartedCounting(s: State, s': State, t: nat)
    requires Counting(s) && StartedStep(s, s', t)
    ensures Counting(s')
  {
  }

  lemma PopCounting(c: Config, s: State, s': State, q: QueueId, w: nat, inspect: bool)
    requires Counting(s) && PopStep(c, s, s', q, w, inspect)
    requires s.queues[q][0] in s.stage && s.stage[s.queues[q][0]].Queued?
    ensures Counting(s')
  {
  }

  lemma CheckCounting(s: State, s': State, e: Entry)
    requires Counting(s) && CheckStep(s, s', e)
    ensures Counting(s')
  {
    LiveState(s.attrs[e.task], s.tasks[e.task], e.instance, s.stage[e]);
  }

  /** The task after instance `k` has got its number. */
  function Handing(task: Task, k: nat): Task {
    task.(current := task.current + 1, handed := task.handed + [k])
  }

  lemma ClaimLocal(attr: Attributes, task: Task, k: nat, st: Stage)
    requires TaskOk(attr, task) && EntryOk(attr, task, k, st) && st.Popped? && k < attr.instances
    ensures TaskOk(attr, Handing(task, k))
    ensures EntryOk(attr, Handing(task, k), k, Executing(st.worker, task.current, Start))
  {
    assert Handing(task, k).handed[task.current] == k;
  }

  lemma ClaimCounting(s: State, s': State, e: Entry)
    requires Counting(s) && ClaimStep(s, s', e)
    ensures Counting(s')
  {
    ClaimLocal(s.attrs[e.task], s.tasks[e.task], e.instance, s.stage[e]);
  }

  lemma StartLocal(attr: Attributes, task: Task, k: nat, st: Stage)
    requires TaskOk(attr, task) && EntryOk(attr, task, k, st) && st.Executing?
    ensures TaskOk(attr, task.(state := Running)) && EntryOk(attr, task.(state := Running), k, st.(epc := Body))
  {
    LiveState(attr, task, k, st);
  }

  lemma StartCounting(s: State, s': State, e: Entry)
    requires Counting(s) && StartStep(s, s', e)
    ensures Counting(s')
  {
    StartLocal(s.attrs[e.task], s.tasks[e.task], e.instance, s.stage[e]);
    LiveState(s.attrs[e.task], s.tasks[e.task], e.instance, s.stage[e]);
  }

  lemma BodyCounting(s: State, s': State, e: Entry)
    requires Counting(s) && BodyStep(s, s', e)
    ensures Counting(s')
  {
  }

  lemma CountdownLocal(attr: Attributes, task: Task, k: nat, st: Stage)
    requires TaskOk(attr, task) && EntryOk(attr, task, k, st) && st.Executing?
    ensures TaskOk(attr, CountedDown(task, k))
    ensures EntryOk(attr, CountedDown(task, k), k,
                    Settling(st.worker, if task.todo == 1 then Finish else Release(false)))
    ensures task.finisher == None && (CountedDown(task, k).pending == {} <==> task.todo == 1)
  {
    LiveState(attr, task, k, st);
    assert task.pending == task.pending - {k} + {k};
  }

  lemma CountdownCounting(s: State, s': State, e: Entry)
    requires Counting(s) && CountdownStep(s, s', e)
    ensures Counting(s')
  {
    CountdownLocal(s.attrs[e.task], s.tasks[e.task], e.instance, s.stage[e]);
  }

  lemma FinishCounting(s: State, s': State, e: Entry)
    requires Counting(s) && FinishStep(s, s', e)
    ensures Counting(s')
  {
  }

  lemma ReleaseCounting(s: State, s': State, e: Entry)
    requires Counting(s) && ReleaseStep(s, s', e)
    ensures Counting(s')
  {
  }

  lemma ReportCounting(s: State, s': State, e: Entry)
    requires Counting(s) && ReportStep(s, s', e)
    ensures Counting(s')
  {
  }

  lemma NotifyCounting(c: Config, s: State, s': State, e: Entry)
    requires Counting(s) && NotifyStep(c, s, s', e)
    ensures Counting(s')
  {
  }

  lemma TakeCounting(s: State, s': State, j: nat)
    requires Counting(s) && TakeStep(s, s', j)
    requires var t := s.groups[s.collectors[j].group].queue[0]; t in s.attrs && s.tasks[t].phase.Waiting?
    ensures Counting(s')
  {
  }

  lemma DeleteCounting(s: State, s': State, j: nat)
    requires Counting(s) && DeleteStep(s, s', j)
    ensures Counting(s')
  {
  }

  lemma UncountCounting(s: State, s': State, j: nat)
    requires Counting(s) && UncountStep(s, s', j)
    ensures Counting(s')
  {
  }
}
