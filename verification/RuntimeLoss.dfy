/** Runs in which a group waits for ever, one in which the callback of a task is called too
    early, and one in which a call waits for a task that will not come. */
module RuntimeLoss {
  import opened Common
  import opened Runtime
  import opened RuntimeStuck
  import opened RuntimeHandout
  import opened RuntimeScenes

  // ----- one task more than the group's queue can hold ---------------------

  /** What surrounds a new task `n`. */
  ghost function Surroundings(s: State, n: nat): Scene
    requires 0 in s.groups
  {
    Scene(n, false, s.groups[0], Below(n), s.slots)
  }

  /** Tasks 0 to n - 1 have run and wait in the group's queue. */
  ghost predicate Filled(n: nat, s: State) {
    && 0 in s.groups && |s.groups[0].queue| == n && s.groups[0].numTasks == n
    && Ready(s, n, Surroundings(s, n)) && forall slot :: slot in s.slots ==> slot < n
  }

  lemma FilledNone()
    ensures Filled(0, Initial())
  {
  }

  lemma EndFilled(limit: nat, n: nat, s: State, scene: Scene)
    requires 0 < n <= limit && scene.slot == n - 1 && !scene.main && scene.tasks == Below(n - 1)
    requires |scene.group.queue| == n - 1 && scene.group.numTasks == n - 1
    requires forall slot :: slot in scene.slots ==> slot < n - 1
    requires Looks(s, n - 1, Ended(limit, scene), Left(scene), After(limit, scene, n - 1))
    ensures Filled(n, s)
  {
  }

  lemma FilledNext(limit: nat, n: nat, s: State, scene: Scene) returns (s': State)
    requires 0 < n <= limit && Reached(Small(limit), s) && Filled(n - 1, s) && scene == Surroundings(s, n - 1)
    ensures Reached(Small(limit), s') && Filled(n, s')
  {
    TaskEnds(limit, s, n - 1, scene);
    s' := SeenState(limit, n - 1, Ended(limit, scene), Left(scene), After(limit, scene, n - 1));
    EndFilled(limit, n, s', scene);
  }

  lemma {:induction false} Fill(limit: nat, n: nat) returns (s: State)
    requires n <= limit
    ensures Reached(Small(limit), s) && Filled(n, s)
  {
    if n == 0 {
      InitialReached(limit);
      FilledNone();
      s := Initial();
    } else {
      var before := Fill(limit, n - 1);
      s := FilledNext(limit, n, before, Surroundings(before, n - 1));
    }
  }

  /** For every limit there is a run with one task more than that, all of which complete,
      in which the last one is lost: the group counts it and does not hold it. */
  lemma OneTooMany(limit: nat)
    requires limit > 0
    ensures exists s ::
              && Reached(Small(limit), s) && 0 in s.groups && Stuck(Small(limit), s, 0, limit)
              && limit in s.tasks && s.tasks[limit].state.Completed?
              && s.groups[0].numTasks == limit + 1 && |s.groups[0].queue| == limit
  {
    var s := Fill(limit, limit);
    var scene := Surroundings(s, limit);
    TaskEnds(limit, s, limit, scene);
    var s' := SeenState(limit, limit, Ended(limit, scene), Left(scene), After(limit, scene, limit));
    assert Stuck(Small(limit), s', 0, limit);
  }

  // ----- a task without instances -----------------------------------------

  function Empty(producer: ProducerPc, phase: Phase): Task {
    Task(if producer.Join? || producer.Publish? then Prenatal else Scheduled, 0, 0, producer, [], {}, 0, None, phase)
  }

  /** Only task 0 has been created, without instances. */
  ghost predicate Alone(s: State, producer: ProducerPc, phase: Phase, numTasks: nat) {
    && s.attrs == map[0 := Plain(0, 0)] && s.tasks == map[0 := Empty(producer, phase)] && s.stage == map[]
    && 0 in s.groups && s.groups[0].numTasks == numTasks
  }

  lemma EmptyCreated(limit: nat) returns (s': State)
    ensures Next(Small(limit), Initial(), s', CreateTask(0, Plain(0, 0)))
    ensures Alone(s', Join, Outside, 0)
  {
    var s := Initial();
    assert NewTask(Plain(0, 0)) == Empty(Join, Outside);
    s' := s.(attrs := s.attrs[0 := Plain(0, 0)], tasks := s.tasks[0 := Empty(Join, Outside)],
             stage := s.stage + FreshEntries(0, 0), slots := s.slots[0 := 0]);
  }

  lemma EmptyJoined(limit: nat, s: State) returns (s': State)
    requires Alone(s, Join, Outside, 0)
    ensures Next(Small(limit), s, s', Joins(0)) && Alone(s', Publish, Unfinished, 1)
  {
    var group := s.groups[0];
    s' := s.(groups := s.groups[0 := group.(numTasks := 1, open := group.open + {0})],
             tasks := s.tasks[0 := Empty(Publish, Unfinished)]);
  }

  lemma EmptyPublished(limit: nat, s: State) returns (s': State)
    requires Alone(s, Publish, Unfinished, 1)
    ensures Next(Small(limit), s, s', Publishes(0)) && Alone(s', Count(0), Unfinished, 1)
  {
    s' := s.(tasks := s.tasks[0 := Empty(Count(0), Unfinished)]);
  }

  lemma EmptyStarted(limit: nat, s: State) returns (s': State)
    requires Alone(s, Count(0), Unfinished, 1)
    ensures Next(Small(limit), s, s', HasStarted(0)) && Alone(s', Started, Unfinished, 1)
  {
    s' := s.(tasks := s.tasks[0 := Empty(Started, Unfinished)]);
  }

  lemma EmptyRuns(limit: nat) returns (s: State)
    ensures Reached(Small(limit), s) && Alone(s, Started, Unfinished, 1)
  {
    InitialReached(limit);
    var s1 := EmptyCreated(limit);
    ReachedNext(limit, Initial(), s1, CreateTask(0, Plain(0, 0)));
    var s2 := EmptyJoined(limit, s1);
    ReachedNext(limit, s1, s2, Joins(0));
    var s3 := EmptyPublished(limit, s2);
    ReachedNext(limit, s2, s3, Publishes(0));
    s := EmptyStarted(limit, s3);
    ReachedNext(limit, s3, s, HasStarted(0));
  }

  lemma AloneStuck(limit: nat, s: State)
    requires Alone(s, Started, Unfinished, 1)
    ensures Stuck(Small(limit), s, 0, 0)
  {
  }

  /** Whatever the queues can hold, a task without instances can be started successfully
      and is stuck then: its group counts it, and no worker will ever finish it. */
  lemma EmptyTask(limit: nat)
    ensures exists s :: Reached(Small(limit), s) && Alone(s, Started, Unfinished, 1) && Stuck(Small(limit), s, 0, 0)
  {
    var s := EmptyRuns(limit);
    AloneStuck(limit, s);
  }

  // ----- a callback for the wrong task ------------------------------------

  const FIRST := Entry(0, 0)

  /** Task 0 has been executed by a main loop that has still to look for its callback, and
      call `j` is collecting it. */
  ghost predicate Late(s: State, j: nat, pc: CollectorPc, phase: Phase, slots: map<nat, nat>) {
    && 0 in s.tasks && 0 in s.attrs && s.attrs[0] == Plain(0, 1) && s.tasks[0].phase == phase
    && (forall t :: t in s.tasks <==> t == 0)
    && FIRST in s.stage && s.stage[FIRST] == Settling(0, Report)
    && 0 in s.groups && s.groups[0].numTasks == 1 && (phase.Waiting? ==> s.groups[0].queue == [0])
    && s.slots == slots && j in s.collectors
       && s.collectors[j] == Collector(0, true, pc, if phase.Deleted? then [0] else [])
  }

  lemma Opening(limit: nat, s: State, j: nat, scene: Scene) returns (s': State)
    requires limit > 0 && j !in s.collectors && scene == Scene(0, true, Group(0, [], {}, []), {}, map[])
    requires Looks(s, 0, Ended(limit, scene), Left(scene), After(limit, scene, 0))
    ensures Next(Small(limit), s, s', Opens(j, 0, true)) && Late(s', j, Load, Waiting, map[0 := 0])
  {
    s' := s.(collectors := s.collectors[j := Collector(0, true, Load, [])]);
  }

  lemma Loading(limit: nat, s: State, j: nat) returns (s': State)
    requires Late(s, j, Load, Waiting, map[0 := 0])
    ensures Next(Small(limit), s, s', Loads(j)) && Late(s', j, Take, Waiting, map[0 := 0])
  {
    s' := s.(collectors := s.collectors[j := Collector(0, true, Take, [])]);
  }

  lemma Taking(limit: nat, s: State, j: nat) returns (s': State)
    requires Late(s, j, Take, Waiting, map[0 := 0])
    ensures Next(Small(limit), s, s', Takes(j)) && Late(s', j, Busy(0), Taken(j), map[0 := 0])
  {
    s' := s.(groups := s.groups[0 := s.groups[0].(queue := s.groups[0].queue[1..])],
             tasks := s.tasks[0 := s.tasks[0].(phase := Taken(j))],
             collectors := s.collectors[j := Collector(0, true, Busy(0), [])]);
  }

  lemma Deleting(limit: nat, s: State, j: nat) returns (s': State)
    requires Late(s, j, Busy(0), Taken(j), map[0 := 0])
    ensures Next(Small(limit), s, s', Deletes(j)) && Late(s', j, Busy(0), Deleted(j), map[])
  {
    assert [] + [0] == [0];
    s' := s.(slots := s.slots - {0}, groups := s.groups[0 := s.groups[0].(collected := s.groups[0].collected + [0])],
             tasks := s.tasks[0 := s.tasks[0].(state := Error, phase := Deleted(j))],
             collectors := s.collectors[j := Collector(0, true, Busy(0), [0])]);
  }

  /** The slot of task 0 is taken by task 1. */
  ghost predicate Replaced(s: State) {
    && Exists(s, 0) && Exists(s, 1) && s.tasks[1].producer.Join? && s.attrs[0].slot == 0
    && FIRST in s.stage && s.stage[FIRST] == Settling(0, Report) && s.slots == map[0 := 1]
  }

  lemma Replacing(limit: nat, s: State, j: nat) returns (s': State)
    requires Late(s, j, Busy(0), Deleted(j), map[]) && 1 !in s.attrs
    ensures Next(Small(limit), s, s', CreateTask(1, Plain(0, 1))) && Replaced(s')
  {
    CreatedIsNew(0);
    assert Acceptable(Small(limit), s, Plain(0, 1));
    s' := s.(attrs := s.attrs[1 := Plain(0, 1)], tasks := s.tasks[1 := Created()],
             stage := s.stage + FreshEntries(1, 1), slots := s.slots[0 := 1]);
  }

  /** The main loop that executed task 0 has found task 1, which has not been started. */
  ghost predicate Mistaken(s: State) {
    && Exists(s, 1) && s.tasks[1].producer.Join?
    && |s.lookups| > 0 && s.lookups[|s.lookups| - 1] == Lookup(FIRST, Some(1))
  }

  lemma Mistaking(limit: nat, s: State) returns (s': State)
    requires Replaced(s)
    ensures Next(Small(limit), s, s', Reports(FIRST)) && Mistaken(s')
  {
    s' := s.(stage := s.stage[FIRST := Done], lookups := s.lookups + [Lookup(FIRST, Some(1))]);
  }

  /** Task 0 runs to its end, taken by a main loop. */
  lemma FirstEnds(limit: nat, scene: Scene)
    requires limit > 0 && scene == Scene(0, true, Group(0, [], {}, []), {}, map[])
    ensures Seen(limit, 0, Ended(limit, scene), Left(scene), After(limit, scene, 0))
  {
    InitialReached(limit);
    TaskEnds(limit, Initial(), 0, scene);
  }

  /** A call collects it before the main loop looks for its callback. */
  lemma FirstDeleted(limit: nat) returns (s: State, j: nat)
    requires limit > 0
    ensures Reached(Small(limit), s) && Late(s, j, Busy(0), Deleted(j), map[])
  {
    var scene := Scene(0, true, Group(0, [], {}, []), {}, map[]);
    FirstEnds(limit, scene);
    var s0 := SeenState(limit, 0, Ended(limit, scene), Left(scene), After(limit, scene, 0));
    j := FreshAbove(s0.collectors.Keys);
    var s1 := Opening(limit, s0, j, scene);
    ReachedNext(limit, s0, s1, Opens(j, 0, true));
    var s2 := Loading(limit, s1, j);
    ReachedNext(limit, s1, s2, Loads(j));
    var s3 := Taking(limit, s2, j);
    ReachedNext(limit, s2, s3, Takes(j));
    s := Deleting(limit, s3, j);
    ReachedNext(limit, s3, s, Deletes(j));
  }

  /** For every limit there is a run in which a main loop that has executed one task looks
      for the callback of another one, which has not even been started. */
  lemma EarlyCallback(limit: nat)
    requires limit > 0
    ensures exists s :: Reached(Small(limit), s) && Mistaken(s)
  {
    var s, j := FirstDeleted(limit);
    ReachedKeys(Small(limit), s);
    assert 1 !in s.attrs.Keys;
    var s1 := Replacing(limit, s, j);
    ReachedNext(limit, s, s1, CreateTask(1, Plain(0, 1)));
    var s2 := Mistaking(limit, s1);
    ReachedNext(limit, s1, s2, Reports(FIRST));
  }

  // ----- a wait for any task that comes too late ---------------------------

  /** Call `j` has deleted task 0, the only one, and still to discount it; call `i` waits
      for any task. */
  ghost predicate Second(s: State, j: nat, i: nat, pc: CollectorPc) {
    && Late(s, j, Busy(0), Deleted(j), map[]) && i != j
    && i in s.collectors && s.collectors[i] == Collector(0, false, pc, [])
  }

  lemma OpeningAny(limit: nat, s: State, j: nat, i: nat) returns (s': State)
    requires Late(s, j, Busy(0), Deleted(j), map[]) && i !in s.collectors
    ensures Next(Small(limit), s, s', Opens(i, 0, false)) && Second(s', j, i, Load)
  {
    s' := s.(collectors := s.collectors[i := Collector(0, false, Load, [])]);
  }

  lemma LoadingAny(limit: nat, s: State, j: nat, i: nat) returns (s': State)
    requires Second(s, j, i, Load)
    ensures Next(Small(limit), s, s', Loads(i)) && Second(s', j, i, Take)
  {
    s' := s.(collectors := s.collectors[i := Collector(0, false, Take, [])]);
  }

  /** The counter is zero, and call `i` is past its look at it. */
  lemma UncountingFirst(limit: nat, s: State, j: nat, i: nat) returns (s': State)
    requires Second(s, j, i, Take)
    ensures Next(Small(limit), s, s', Uncounts(j)) && Starves(Small(limit), s', i, 0) && s'.groups[0].numTasks == 0
  {
    var group := s.groups[0];
    s' := s.(groups := s.groups[0 := group.(numTasks := 0, open := group.open - {0})],
             tasks := s.tasks[0 := s.tasks[0].(phase := Collected(j))],
             collectors := s.collectors[j := Collector(0, true, Take, [0])]);
  }

  /** For every limit there is a run with one task and two calls in which the second one waits
      for any task although the group's counter is zero. */
  lemma StarvedCall(limit: nat)
    requires limit > 0
    ensures exists s, i :: Reached(Small(limit), s) && Starves(Small(limit), s, i, 0) && s.groups[0].numTasks == 0
  {
    var s, j := FirstDeleted(limit);
    var i := FreshAbove(s.collectors.Keys);
    var s1 := OpeningAny(limit, s, j, i);
    ReachedNext(limit, s, s1, Opens(i, 0, false));
    var s2 := LoadingAny(limit, s1, j, i);
    ReachedNext(limit, s1, s2, Loads(i));
    var s3 := UncountingFirst(limit, s2, j, i);
    ReachedNext(limit, s2, s3, Uncounts(j));
  }
}
