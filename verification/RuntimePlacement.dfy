/** Where the instances of the tasks are: in one queue at a time, counted by their
    action, on workers their affinity admits, and in the order they were pushed. */
module RuntimePlacement {
  import opened Common
  import opened Affinity
  import opened Runtime
  import opened RuntimeInvariants

  // ----- queues -----------------------------------------------------------

  /** The queues hold exactly the queued instances, each once. */
  ghost predicate Placed(s: State) {
    && (forall q, i :: q in s.queues && 0 <= i < |s.queues[q]| ==>
          s.queues[q][i] in s.stage && s.stage[s.queues[q][i]] == Queued(q))
    && (forall q :: q in s.queues ==> Distinct(s.queues[q]))
    && (forall e :: e in s.stage && s.stage[e].Queued? ==>
          s.stage[e].queue in s.queues && e in s.queues[s.stage[e].queue])
  }

  /** The step leaves the queues and the queued instances alone. */
  ghost predicate QueuesUntouched(s: State, s': State) {
    && s'.queues == s.queues && s'.pushes == s.pushes && s'.pops == s.pops
    && (forall e :: e in s.stage && s.stage[e].Queued? ==> e in s'.stage && s'.stage[e] == s.stage[e])
    && (forall e :: e in s'.stage && s'.stage[e].Queued? ==> e in s.stage && s'.stage[e] == s.stage[e])
  }

  lemma UntouchedPlaced(s: State, s': State)
    requires Placed(s) && QueuesUntouched(s, s')
    ensures Placed(s')
  {
  }

  lemma PushPlaced(c: Config, s: State, s': State, t: nat)
    requires Placed(s) && PushStep(c, s, s', t)
    requires var e := Entry(t, s.tasks[t].producer.k); e in s.stage && !s.stage[e].Queued?
    ensures Placed(s')
  {
  }

  lemma PopPlaced(c: Config, s: State, s': State, q: QueueId, w: nat, inspect: bool)
    requires Placed(s) && PopStep(c, s, s', q, w, inspect)
    ensures Placed(s')
  {
    var e := s.queues[q][0];
    forall x | x in s'.stage && s'.stage[x].Queued?
      ensures s'.stage[x].queue in s'.queues && x in s'.queues[s'.stage[x].queue]
    {
      var p := s.stage[x].queue;
      var i :| 0 <= i < |s.queues[p]| && s.queues[p][i] == x;
      if p == q { assert s'.queues[q][i - 1] == x; }
    }
  }

  // ----- order ------------------------------------------------------------

  /** The part of a log that concerns queue `q`. */
  function Of(log: seq<(QueueId, Entry)>, q: QueueId): seq<Entry> {
    if log == [] then [] else
      var last := log[|log| - 1];
      Of(log[..|log| - 1], q) + (if last.0 == q then [last.1] else [])
  }

  lemma OfAppend(log: seq<(QueueId, Entry)>, p: QueueId, e: Entry, q: QueueId)
    ensures Of(log + [(p, e)], q) == Of(log, q) + (if p == q then [e] else [])
  {
    assert (log + [(p, e)])[..|log|] == log;
  }

  /** What was pushed to a queue is what was popped from it, followed by what it
      holds. */
  ghost predicate Logged(s: State) {
    forall q :: q in s.queues ==> Of(s.pushes, q) == Of(s.pops, q) + s.queues[q]
  }

  lemma PushLogged(c: Config, s: State, s': State, t: nat)
    requires Logged(s) && PushStep(c, s, s', t)
    ensures Logged(s')
  {
    var p, e := s.tasks[t].producer.queue, Entry(t, s.tasks[t].producer.k);
    forall q | q in s'.queues ensures Of(s'.pushes, q) == Of(s'.pops, q) + s'.queues[q] {
      OfAppend(s.pushes, p, e, q);
    }
  }

  lemma PopLogged(c: Config, s: State, s': State, p: QueueId, w: nat, inspect: bool)
    requires Logged(s) && PopStep(c, s, s', p, w, inspect)
    ensures Logged(s')
  {
    var e := s.queues[p][0];
    forall q | q in s'.queues ensures Of(s'.pushes, q) == Of(s'.pops, q) + s'.queues[q] {
      OfAppend(s.pops, p, e, q);
      assert s.queues[p] == [e] + s.queues[p][1..];
    }
  }

  // ----- actions ----------------------------------------------------------

  /** An action counts exactly the instances in flight for it. */
  ghost predicate Flights(s: State) {
    && (forall a :: a in s.inFlight ==> a in s.numTasks && s.numTasks[a] == |s.inFlight[a]|)
    && (forall a, e :: a in s.inFlight ==> (e in s.inFlight[a] <==> FliesFor(s, a, e)))
  }

  ghost predicate FliesFor(s: State, a: nat, e: Entry) {
    e in s.stage && e.task in s.attrs && s.attrs[e.task].action == a && InFlight(s.stage[e])
  }

  ghost predicate FlightsUntouched(s: State, s': State) {
    && s'.numTasks == s.numTasks && s'.inFlight == s.inFlight
    && (forall a, e :: FliesFor(s', a, e) <==> FliesFor(s, a, e))
  }

  lemma UntouchedFlights(s: State, s': State)
    requires Flights(s) && FlightsUntouched(s, s')
    ensures Flights(s')
  {
  }

  lemma StageFlights(s: State, s': State, e: Entry, st: Stage)
    requires s'.numTasks == s.numTasks && s'.inFlight == s.inFlight && s'.attrs == s.attrs
    requires e in s.stage && s'.stage == s.stage[e := st] && (InFlight(st) <==> InFlight(s.stage[e]))
    ensures FlightsUntouched(s, s')
  {
  }

  lemma CreateFlights(c: Config, s: State, s': State, t: nat, attr: Attributes)
    requires (forall e :: e in s.stage ==> e.task in s.attrs) && CreateStep(c, s, s', t, attr)
    ensures FlightsUntouched(s, s')
  {
  }

  lemma CountFlights(s: State, s': State, t: nat)
    requires Flights(s) && CountStep(s, s', t)
    requires var e := Entry(t, s.tasks[t].producer.k); e in s.stage && s.stage[e].Fresh?
    ensures Flights(s')
  {
    var e, a := Entry(t, s.tasks[t].producer.k), s.attrs[t].action;
    assert !FliesFor(s, a, e);
    forall x, b ensures FliesFor(s', b, x) <==> FliesFor(s, b, x) || (x == e && b == a) {
    }
  }

  /** Instance `e` is no longer in flight. */
  lemma LandFlights(s: State, s': State, e: Entry, a: nat)
    requires Flights(s) && FliesFor(s, a, e) && a in s.numTasks && a in s.inFlight && s'.attrs == s.attrs
    requires s'.numTasks == s.numTasks[a := s.numTasks[a] - 1] && s'.inFlight == s.inFlight[a := s.inFlight[a] - {e}]
    requires e in s'.stage && !InFlight(s'.stage[e]) && s'.stage == s.stage[e := s'.stage[e]]
    ensures Flights(s')
  {
    forall x, b ensures FliesFor(s', b, x) <==> FliesFor(s, b, x) && x != e {
    }
  }

  // ----- affinity ---------------------------------------------------------

  /** Queue `q` suits a task: it has the task's priority, and it is private to a
      worker of the task's affinity unless the task may run anywhere. */
  ghost predicate Suits(c: Config, attr: Attributes, q: QueueId)
    requires c.Valid()
  {
    && q.priority == attr.priority && QueueExists(q, c.workers, c.priorities)
    && (if Restricted(c, attr) then q.Private? && q.worker in MaskOf(c, attr) else q.Public?)
  }

  ghost predicate Admits(c: Config, attr: Attributes, w: nat)
    requires c.Valid()
  {
    w < c.workers && w in MaskOf(c, attr)
  }

  ghost predicate StageSuits(c: Config, attr: Attributes, st: Stage)
    requires c.Valid()
  {
    && (st.Queued? ==> Suits(c, attr, st.queue))
    && (st.Popped? || st.Executing? || st.Settling? ==> Admits(c, attr, st.worker))
  }

  ghost predicate Aimed(c: Config, s: State) {
    && c.Valid()
    && (forall t :: t in s.attrs && s.attrs[t].accepted ==> s.attrs[t].priority < c.priorities)
    && (forall e :: e in s.stage && e.task in s.attrs ==> StageSuits(c, s.attrs[e.task], s.stage[e]))
    && (forall t :: t in s.tasks && t in s.attrs && s.tasks[t].producer.Push? ==>
          Suits(c, s.attrs[t], s.tasks[t].producer.queue))
  }

  lemma AimSuits(c: Config, attr: Attributes, k: nat, counter: nat, q: QueueId)
    requires c.Valid() && attr.priority < c.priorities && AimsAt(c, attr, k, counter, q)
    ensures Suits(c, attr, q)
  {
    if Restricted(c, attr) {
      var n: nat :| Hit(MaskOf(c, attr), counter, n, c.workers, q.worker);
    }
  }

  /** Whoever may take from a suitable queue is admitted by the task's affinity. */
  lemma PopAdmits(c: Config, attr: Attributes, q: QueueId, w: nat)
    requires c.Valid() && Suits(c, attr, q) && w < c.workers && Eligible(w, q)
    ensures Admits(c, attr, w)
  {
  }

  /** Every logged push and pop went to a queue that suits the task. */
  ghost predicate LogSuits(c: Config, attrs: map<nat, Attributes>, log: seq<(QueueId, Entry)>) {
    c.Valid() && forall i {:trigger log[i]} :: 0 <= i < |log| ==>
      log[i].1.task in attrs && Suits(c, attrs[log[i].1.task], log[i].0)
  }
}
