/** Runs of a small node, put together from steps of one task at a time. */
module RuntimeScenes {
  import opened Common
  import opened Runtime
  import opened RuntimeSlots
  import opened RuntimeSafety

  // ----- reachable states -------------------------------------------------

  ghost predicate Reached(c: Config, s: State) {
    exists run :: Run(c, run) && run[|run| - 1] == s
  }

  /** The counters of the actions, and which tasks there are. */
  ghost predicate KeysOk(c: Config, s: State) {
    s.numTasks.Keys == c.actions.Keys && s.inFlight.Keys == c.actions.Keys && s.attrs.Keys == s.tasks.Keys
  }

  lemma KeysKept(c: Config, s: State)
    requires Keeps(c, s, OfNames) && Keeps(c, s, OfStages)
    ensures KeysOk(c, s)
  {
  }

  lemma ReachedKeys(c: Config, s: State)
    requires Reached(c, s)
    ensures KeysOk(c, s)
  {
    var run :| Run(c, run) && run[|run| - 1] == s;
    RunSafe(c, run, |run| - 1);
    KeysKept(c, s);
  }

  lemma ReachedMains(c: Config, s: State, e: Entry)
    requires Reached(c, s) && e in s.stage && s.stage[e].Queued?
    ensures e !in s.mains
  {
    var run :| Run(c, run) && run[|run| - 1] == s;
    RunSafe(c, run, |run| - 1);
    assert Keeps(c, s, OfLookups);
  }

  lemma ReachedInitial(c: Config, s: State)
    requires Init(c, s)
    ensures Reached(c, s)
  {
    assert Run(c, [s]) && [s][|[s]| - 1] == s;
  }

  lemma ReachedMoves(c: Config, s: State, s': State)
    requires Reached(c, s) && Moves(c, s, s')
    ensures Reached(c, s')
  {
    var run :| Run(c, run) && run[|run| - 1] == s;
    PathExtends(c, run, s');
    assert (run + [s'])[|run + [s']| - 1] == s';
  }

  // ----- one worker, one action, one group --------------------------------

  /** A node whose queues hold `limit` tasks. */
  function Small(limit: nat): Config {
    Config(1, 1, limit, map[0 := {0}], map[])
  }

  const QUEUE := Public(0, 0)

  /** A task for group 0. */
  function Plain(slot: nat, instances: nat): Attributes {
    Attributes(slot, instances, 0, 0, {}, None, Some(0), true)
  }

  function Initial(): State {
    State(map[Public(0, 0) := [], Private(0, 0) := []], map[], map[], map[], map[0 := 0],
          map[0 := Group(0, [], {}, [])],
          map[], 0, map[], {}, map[0 := {}], [], [], [])
  }

  lemma InitialReached(limit: nat)
    ensures Reached(Small(limit), Initial())
  {
    ReachedInitial(Small(limit), Initial());
  }

  /** The surroundings of a task with one instance: its slot, whether a main loop takes it,
      the group, which tasks there are, and where they live. */
  datatype Scene = Scene(slot: nat, main: bool, group: Group, tasks: set<nat>, slots: map<nat, nat>)

  /** Where task `t` and its instance are, and that the scheduler's queue holds no other. */
  ghost predicate Looks(s: State, t: nat, task: Task, stage: Stage, scene: Scene) {
    && t in s.attrs && s.attrs[t] == Plain(scene.slot, 1) && t in s.tasks && s.tasks[t] == task
    && Entry(t, 0) in s.stage && s.stage[Entry(t, 0)] == stage
    && (PastPop(stage) ==> (Entry(t, 0) in s.mains <==> scene.main))
    && QUEUE in s.queues && s.queues[QUEUE] == (if stage.Queued? then [Entry(t, 0)] else [])
    && 0 in s.groups && s.groups[0] == scene.group
    && (forall u :: u in s.tasks <==> u in scene.tasks)
    && s.slots == scene.slots
  }

  /** A reachable state that looks like that. */
  ghost predicate Seen(limit: nat, t: nat, task: Task, stage: Stage, scene: Scene) {
    exists s :: Reached(Small(limit), s) && Looks(s, t, task, stage, scene)
  }

  lemma SeenState(limit: nat, t: nat, task: Task, stage: Stage, scene: Scene) returns (s: State)
    requires Seen(limit, t, task, stage, scene)
    ensures Reached(Small(limit), s) && Looks(s, t, task, stage, scene)
  {
    s :| Reached(Small(limit), s) && Looks(s, t, task, stage, scene);
  }

  // ----- one task from its creation to its end ----------------------------

  /** The task as it gets on. */
  function Created(): Task {
    Task(Prenatal, 1, 0, Join, [], {0}, 0, None, Outside)
  }

  lemma CreatedIsNew(slot: nat)
    ensures NewTask(Plain(slot, 1)) == Created()
  {
    assert Below(1) == {0};
  }

  function Joined(): Task {
    Task(Prenatal, 1, 0, Publish, [], {0}, 0, None, Unfinished)
  }

  function Published(pc: ProducerPc): Task {
    Task(Scheduled, 1, 0, pc, [], {0}, 0, None, Unfinished)
  }

  function Claimed(state: TaskState): Task {
    Task(state, 1, 1, Count(1), [0], {0}, 0, None, Unfinished)
  }

  function Finished(state: TaskState): Task {
    Task(state, 0, 1, Count(1), [0], {}, 1, Some(0), Unfinished)
  }

  function WithTask(scene: Scene, t: nat): Scene {
    scene.(group := scene.group.(numTasks := scene.group.numTasks + 1, open := scene.group.open + {t}))
  }

  /** What becomes of the task, its instance and the group's queue in the end. */
  function Ended(limit: nat, scene: Scene): Task {
    Task(Completed, 0, 1, Count(1), [0], {}, 1, None, if |scene.group.queue| < limit then Waiting else Lost)
  }

  function Left(scene: Scene): Stage {
    if scene.main then Settling(0, Report) else Done
  }

  function Notified(limit: nat, scene: Scene, t: nat): Scene {
    var queue := scene.group.queue;
    scene.(group := scene.group.(queue := if |queue| < limit then queue + [t] else queue))
  }

  lemma Unrestricted(limit: nat, slot: nat, counter: nat)
    ensures Small(limit).Valid() && !Restricted(Small(limit), Plain(slot, 1))
    ensures AimsAt(Small(limit), Plain(slot, 1), 0, counter, QUEUE)
  {
    assert {0} * {} == {};
  }

  /** The scene after the creation of a task. */
  function Housing(scene: Scene, t: nat): Scene {
    scene.(tasks := scene.tasks + {t}, slots := scene.slots[scene.slot := t])
  }

  lemma Creating(limit: nat, s: State, t: nat, scene: Scene) returns (s': State)
    requires t !in scene.tasks && t !in s.attrs && scene.slot !in scene.slots && s.slots == scene.slots
    requires forall u :: u in s.tasks <==> u in scene.tasks
    requires QUEUE in s.queues && s.queues[QUEUE] == [] && 0 in s.groups && s.groups[0] == scene.group
    ensures Next(Small(limit), s, s', CreateTask(t, Plain(scene.slot, 1)))
    ensures Looks(s', t, Created(), Fresh, Housing(scene, t))
  {
    var attr := Plain(scene.slot, 1);
    CreatedIsNew(scene.slot);
    assert Acceptable(Small(limit), s, attr);
    assert Entry(t, 0) in FreshEntries(t, 1);
    s' := s.(attrs := s.attrs[t := attr], tasks := s.tasks[t := Created()], stage := s.stage + FreshEntries(t, 1),
             slots := s.slots[scene.slot := t]);
  }

  lemma Joining(limit: nat, s: State, t: nat, scene: Scene) returns (s': State)
    requires Looks(s, t, Created(), Fresh, scene)
    ensures Next(Small(limit), s, s', Joins(t))
    ensures Looks(s', t, Joined(), Fresh, WithTask(scene, t))
  {
    s' := s.(groups := s.groups[0 := WithTask(scene, t).group], tasks := s.tasks[t := Joined()]);
  }

  lemma Publishing(limit: nat, s: State, t: nat, scene: Scene) returns (s': State)
    requires Looks(s, t, Joined(), Fresh, scene)
    ensures Next(Small(limit), s, s', Publishes(t))
    ensures Looks(s', t, Published(Count(0)), Fresh, scene)
  {
    s' := s.(tasks := s.tasks[t := Published(Count(0))]);
  }

  lemma CountingUp(limit: nat, s: State, t: nat, scene: Scene) returns (s': State)
    requires Looks(s, t, Published(Count(0)), Fresh, scene) && 0 in s.numTasks && 0 in s.inFlight
    ensures Next(Small(limit), s, s', Counts(t))
    ensures Looks(s', t, Published(Aim(0)), Counted, scene)
  {
    s' := s.(numTasks := s.numTasks[0 := s.numTasks[0] + 1], inFlight := s.inFlight[0 := s.inFlight[0] + {Entry(t, 0)}],
             stage := s.stage[Entry(t, 0) := Counted], tasks := s.tasks[t := Published(Aim(0))]);
  }

  lemma Aiming(limit: nat, s: State, t: nat, scene: Scene) returns (s': State)
    requires Looks(s, t, Published(Aim(0)), Counted, scene)
    ensures Next(Small(limit), s, s', Aims(t, QUEUE))
    ensures Looks(s', t, Published(Push(0, QUEUE)), Counted, scene)
  {
    Unrestricted(limit, scene.slot, s.counter);
    s' := s.(tasks := s.tasks[t := Published(Push(0, QUEUE))]);
  }

  lemma Pushing(limit: nat, s: State, t: nat, scene: Scene) returns (s': State)
    requires Looks(s, t, Published(Push(0, QUEUE)), Counted, scene) && limit > 0
    ensures Next(Small(limit), s, s', Pushes(t))
    ensures Looks(s', t, Published(Count(1)), Queued(QUEUE), scene)
  {
    s' := s.(queues := s.queues[QUEUE := s.queues[QUEUE] + [Entry(t, 0)]], pushes := s.pushes + [(QUEUE, Entry(t, 0))],
             stage := s.stage[Entry(t, 0) := Queued(QUEUE)], tasks := s.tasks[t := Published(Count(1))]);
  }

  lemma Popping(limit: nat, s: State, t: nat, scene: Scene) returns (s': State)
    requires Looks(s, t, Published(Count(1)), Queued(QUEUE), scene) && Entry(t, 0) !in s.mains
    ensures Next(Small(limit), s, s', Pops(QUEUE, 0, scene.main))
    ensures Looks(s', t, Published(Count(1)), Popped(0, scene.main), scene)
  {
    s' := s.(queues := s.queues[QUEUE := s.queues[QUEUE][1..]], pops := s.pops + [(QUEUE, Entry(t, 0))],
             stage := s.stage[Entry(t, 0) := Popped(0, scene.main)],
             mains := if scene.main then s.mains + {Entry(t, 0)} else s.mains);
  }

  lemma Checking(limit: nat, s: State, t: nat, scene: Scene) returns (s': State)
    requires Looks(s, t, Published(Count(1)), Popped(0, true), scene)
    ensures Next(Small(limit), s, s', Checks(Entry(t, 0)))
    ensures Looks(s', t, Published(Count(1)), Popped(0, false), scene)
  {
    s' := s.(stage := s.stage[Entry(t, 0) := Popped(0, false)]);
  }

  lemma Claiming(limit: nat, s: State, t: nat, scene: Scene) returns (s': State)
    requires Looks(s, t, Published(Count(1)), Popped(0, false), scene)
    ensures Next(Small(limit), s, s', Claims(Entry(t, 0)))
    ensures Looks(s', t, Claimed(Scheduled), Executing(0, 0, ExecutePc.Start), scene)
  {
    assert [] + [Entry(t, 0).instance] == [0];
    s' := s.(tasks := s.tasks[t := Claimed(Scheduled)],
             stage := s.stage[Entry(t, 0) := Executing(0, 0, ExecutePc.Start)]);
  }

  lemma Starting(limit: nat, s: State, t: nat, scene: Scene) returns (s': State)
    requires Looks(s, t, Claimed(Scheduled), Executing(0, 0, ExecutePc.Start), scene)
    ensures Next(Small(limit), s, s', Starts(Entry(t, 0)))
    ensures Looks(s', t, Claimed(Running), Executing(0, 0, Body), scene)
  {
    s' := s.(tasks := s.tasks[t := Claimed(Running)], stage := s.stage[Entry(t, 0) := Executing(0, 0, Body)]);
  }

  lemma Returning(limit: nat, s: State, t: nat, scene: Scene) returns (s': State)
    requires Looks(s, t, Claimed(Running), Executing(0, 0, Body), scene)
    ensures Next(Small(limit), s, s', ReturnsFrom(Entry(t, 0)))
    ensures Looks(s', t, Claimed(Running), Executing(0, 0, Countdown), scene)
  {
    s' := s.(stage := s.stage[Entry(t, 0) := Executing(0, 0, Countdown)]);
  }

  lemma CountingDown(limit: nat, s: State, t: nat, scene: Scene) returns (s': State)
    requires Looks(s, t, Claimed(Running), Executing(0, 0, Countdown), scene)
    ensures Next(Small(limit), s, s', CountsDown(Entry(t, 0)))
    ensures Looks(s', t, Finished(Running), Settling(0, Finish), scene)
  {
    assert {0} - {Entry(t, 0).instance} == {};
    s' := s.(tasks := s.tasks[t := Finished(Running)], stage := s.stage[Entry(t, 0) := Settling(0, Finish)]);
  }

  lemma Finishing(limit: nat, s: State, t: nat, scene: Scene) returns (s': State)
    requires Looks(s, t, Finished(Running), Settling(0, Finish), scene)
    ensures Next(Small(limit), s, s', Finishes(Entry(t, 0)))
    ensures Looks(s', t, Finished(Completed), Settling(0, Release(true)), scene)
  {
    s' := s.(tasks := s.tasks[t := Finished(Completed)], stage := s.stage[Entry(t, 0) := Settling(0, Release(true))]);
  }

  lemma Releasing(limit: nat, s: State, t: nat, scene: Scene) returns (s': State)
    requires Looks(s, t, Finished(Completed), Settling(0, Release(true)), scene) && 0 in s.numTasks && 0 in s.inFlight
    ensures Next(Small(limit), s, s', Releases(Entry(t, 0)))
    ensures Looks(s', t, Finished(Completed), Settling(0, Notify), scene)
  {
    s' := s.(numTasks := s.numTasks[0 := s.numTasks[0] - 1], inFlight := s.inFlight[0 := s.inFlight[0] - {Entry(t, 0)}],
             stage := s.stage[Entry(t, 0) := Settling(0, Notify)], tasks := s.tasks[t := Finished(Completed)]);
  }

  lemma Notifying(limit: nat, s: State, t: nat, scene: Scene) returns (s': State)
    requires Looks(s, t, Finished(Completed), Settling(0, Notify), scene)
    ensures Next(Small(limit), s, s', Notifies(Entry(t, 0)))
    ensures Looks(s', t, Ended(limit, scene), Left(scene), Notified(limit, scene, t))
  {
    s' := s.(groups := s.groups[0 := Notified(limit, scene, t).group], tasks := s.tasks[t := Ended(limit, scene)],
             stage := s.stage[Entry(t, 0) := Left(scene)]);
  }

  // ----- all the steps ----------------------------------------------------

  lemma ReachedNext(limit: nat, s: State, s': State, step: Step)
    requires Reached(Small(limit), s) && Next(Small(limit), s, s', step)
    ensures Reached(Small(limit), s') && KeysOk(Small(limit), s')
  {
    assert Moves(Small(limit), s, s');
    ReachedMoves(Small(limit), s, s');
    ReachedKeys(Small(limit), s');
  }

  /** A state in which the next task can be created. */
  ghost predicate Ready(s: State, t: nat, scene: Scene) {
    && t !in scene.tasks && scene.slot !in scene.slots && s.slots == scene.slots
    && (forall u :: u in s.tasks <==> u in scene.tasks)
    && QUEUE in s.queues && s.queues[QUEUE] == [] && 0 in s.groups && s.groups[0] == scene.group
  }

  /** The task is created and counted by its group. */
  lemma Begins(limit: nat, s: State, t: nat, scene: Scene)
    requires Reached(Small(limit), s) && Ready(s, t, scene)
    ensures Seen(limit, t, Published(Count(0)), Fresh, WithTask(Housing(scene, t), t))
  {
    ReachedKeys(Small(limit), s);
    assert t !in s.tasks.Keys;
    var s1 := Creating(limit, s, t, scene);
    ReachedNext(limit, s, s1, CreateTask(t, Plain(scene.slot, 1)));
    var s2 := Joining(limit, s1, t, Housing(scene, t));
    ReachedNext(limit, s1, s2, Joins(t));
    var s3 := Publishing(limit, s2, t, WithTask(Housing(scene, t), t));
    ReachedNext(limit, s2, s3, Publishes(t));
  }

  /** Its instance is pushed. */
  lemma Pushed(limit: nat, t: nat, scene: Scene)
    requires limit > 0 && Seen(limit, t, Published(Count(0)), Fresh, scene)
    ensures Seen(limit, t, Published(Count(1)), Queued(QUEUE), scene)
  {
    var s :| Reached(Small(limit), s) && Looks(s, t, Published(Count(0)), Fresh, scene);
    ReachedKeys(Small(limit), s);
    assert 0 in s.numTasks.Keys && 0 in s.inFlight.Keys;
    var s1 := CountingUp(limit, s, t, scene);
    ReachedNext(limit, s, s1, Counts(t));
    var s2 := Aiming(limit, s1, t, scene);
    ReachedNext(limit, s1, s2, Aims(t, QUEUE));
    var s3 := Pushing(limit, s2, t, scene);
    ReachedNext(limit, s2, s3, Pushes(t));
  }

  /** A worker takes the instance. */
  lemma Fetched(limit: nat, t: nat, scene: Scene)
    requires Seen(limit, t, Published(Count(1)), Queued(QUEUE), scene)
    ensures Seen(limit, t, Published(Count(1)), Popped(0, false), scene)
  {
    var s :| Reached(Small(limit), s) && Looks(s, t, Published(Count(1)), Queued(QUEUE), scene);
    ReachedMains(Small(limit), s, Entry(t, 0));
    var s1 := Popping(limit, s, t, scene);
    ReachedNext(limit, s, s1, Pops(QUEUE, 0, scene.main));
    if scene.main {
      var s2 := Checking(limit, s1, t, scene);
      ReachedNext(limit, s1, s2, Checks(Entry(t, 0)));
    }
  }

  /** It calls the action. */
  lemma Executed(limit: nat, t: nat, scene: Scene)
    requires Seen(limit, t, Published(Count(1)), Popped(0, false), scene)
    ensures Seen(limit, t, Claimed(Running), Executing(0, 0, Body), scene)
  {
    var s :| Reached(Small(limit), s) && Looks(s, t, Published(Count(1)), Popped(0, false), scene);
    var s1 := Claiming(limit, s, t, scene);
    ReachedNext(limit, s, s1, Claims(Entry(t, 0)));
    var s2 := Starting(limit, s1, t, scene);
    ReachedNext(limit, s1, s2, Starts(Entry(t, 0)));
  }

  /** The action returns and the countdown reads 1. */
  lemma CountedOut(limit: nat, t: nat, scene: Scene)
    requires Seen(limit, t, Claimed(Running), Executing(0, 0, Body), scene)
    ensures Seen(limit, t, Finished(Completed), Settling(0, Release(true)), scene)
  {
    var s :| Reached(Small(limit), s) && Looks(s, t, Claimed(Running), Executing(0, 0, Body), scene);
    var s1 := Returning(limit, s, t, scene);
    ReachedNext(limit, s, s1, ReturnsFrom(Entry(t, 0)));
    var s2 := CountingDown(limit, s1, t, scene);
    ReachedNext(limit, s1, s2, CountsDown(Entry(t, 0)));
    var s3 := Finishing(limit, s2, t, scene);
    ReachedNext(limit, s2, s3, Finishes(Entry(t, 0)));
  }

  /** The action and then the group learn that the task is done. */
  lemma Settled(limit: nat, t: nat, scene: Scene)
    requires Seen(limit, t, Finished(Completed), Settling(0, Release(true)), scene)
    ensures Seen(limit, t, Ended(limit, scene), Left(scene), Notified(limit, scene, t))
  {
    var s :| Reached(Small(limit), s) && Looks(s, t, Finished(Completed), Settling(0, Release(true)), scene);
    ReachedKeys(Small(limit), s);
    assert 0 in s.numTasks.Keys && 0 in s.inFlight.Keys;
    var s1 := Releasing(limit, s, t, scene);
    ReachedNext(limit, s, s1, Releases(Entry(t, 0)));
    var s2 := Notifying(limit, s1, t, scene);
    ReachedNext(limit, s1, s2, Notifies(Entry(t, 0)));
  }

  /** The scene at the end of a new task. */
  function After(limit: nat, scene: Scene, t: nat): Scene {
    Notified(limit, WithTask(Housing(scene, t), t), t)
  }

  /** From any state with an empty queue a new task of the group can run to its end. */
  lemma TaskEnds(limit: nat, s: State, t: nat, scene: Scene)
    requires limit > 0 && Reached(Small(limit), s) && Ready(s, t, scene)
    ensures Seen(limit, t, Ended(limit, scene), Left(scene), After(limit, scene, t))
  {
    var housed := WithTask(Housing(scene, t), t);
    Begins(limit, s, t, scene);
    Pushed(limit, t, housed);
    Fetched(limit, t, housed);
    Executed(limit, t, housed);
    CountedOut(limit, t, housed);
    Settled(limit, t, housed);
  }
}
