/** Any number of threads push to and pop from one task queue, guarded by its
    spinlock. A step is one compare-and-swap or one access to one field. */
module ConcurrentQueue {
  import opened Common
  import opened Rings
  import opened TaskQueues

  /** Tries of a pop before it gives up on the lock. */
  const POP_SPINS: nat := 128

  datatype Pc =
    | Idle
    // push
    | PushSpin(task: nat)
    | PushTest(task: nat)
    | PushAdvance(task: nat)
    | PushWrap(task: nat, position: nat)
    | PushStore(task: nat, position: nat)
    | PushCount(task: nat)
    | PushUnlock(task: nat, result: bool)
    // pop
    | PopSpin(budget: nat)
    | PopTest
    | PopCount
    | PopAdvance
    | PopWrap(position: nat)
    | PopFetch(position: nat)
    | PopClear(position: nat, fetched: Option<nat>)
    | PopUnlock(fetched: Option<nat>)

  /** Between the acquisition of the lock and its release. */
  predicate Critical(pc: Pc) {
    !pc.Idle? && !pc.PushSpin? && !pc.PopSpin?
  }

  datatype State = State(
    lock: int,
    ring: Ring<nat>,
    threads: map<nat, Pc>,
    // history
    holder: Option<nat>,  // the thread that took the lock
    base: Ring<nat>,           // the fields when the lock was last free
    pushed: seq<nat>,     // tasks of the pushes that returned true
    popped: seq<nat>)     // tasks returned by pops

  ghost predicate Init(s: State, limit: nat) {
    && s.lock == 0 && s.ring == Ring(s.ring.buffer, 0, 0, 0) && |s.ring.buffer| == limit
    && s.holder == None && s.base == s.ring && s.pushed == [] && s.popped == []
    && forall t :: t in s.threads ==> s.threads[t].Idle?
  }

  // ----- the lock ---------------------------------------------------------

  /** The compare-and-swap of an acquisition: from 0 to 1, or a failed try. */
  ghost predicate Acquire(s: State, s': State, t: nat, locked: Pc, failed: Pc) {
    if s.lock == 0
    then s' == s.(lock := 1, holder := Some(t), base := s.ring, threads := s.threads[t := locked])
    else s' == s.(threads := s.threads[t := failed])
  }

  /** The compare-and-swap of a release: from 1 to 0. */
  ghost predicate Release(s: State, s': State, t: nat, pushed: seq<nat>, popped: seq<nat>) {
    s' == s.(lock := if s.lock == 1 then 0 else s.lock, holder := None, base := s.ring, threads := s.threads[t := Idle],
             pushed := s.pushed + pushed, popped := s.popped + popped)
  }

  ghost predicate Write(s: State, s': State, t: nat, ring: Ring<nat>, pc: Pc) {
    s' == s.(ring := ring, threads := s.threads[t := pc])
  }

  function SetSlot(buffer: seq<nat>, position: nat, value: nat): seq<nat> {
    if position < |buffer| then buffer[position := value] else buffer
  }

  // ----- push and pop -----------------------------------------------------

  ghost predicate PushStep(s: State, s': State, t: nat) {
    t in s.threads &&
    var r := s.ring; var limit := |r.buffer|;
    match s.threads[t]
    case PushSpin(x) => Acquire(s, s', t, PushTest(x), PushSpin(x))
    case PushTest(x) => Write(s, s', t, r, if limit > r.available then PushAdvance(x) else PushUnlock(x, false))
    case PushAdvance(x) => Write(s, s', t, r.(put := r.put + 1), PushWrap(x, r.put))
    case PushWrap(x, p) => Write(s, s', t, r.(put := Wrap(r.put, limit)), PushStore(x, p))
    case PushStore(x, p) => Write(s, s', t, r.(buffer := SetSlot(r.buffer, p, x)), PushCount(x))
    case PushCount(x) => Write(s, s', t, r.(available := r.available + 1), PushUnlock(x, true))
    case PushUnlock(x, result) => Release(s, s', t, if result then [x] else [], [])
    case _ => false
  }

  ghost predicate PopStep(s: State, s': State, t: nat) {
    t in s.threads &&
    var r := s.ring; var limit := |r.buffer|;
    match s.threads[t]
    case PopSpin(budget) => Acquire(s, s', t, PopTest, if budget <= 1 then Idle else PopSpin(budget - 1))
    case PopTest => Write(s, s', t, r, if 0 < r.available then PopCount else PopUnlock(None))
    case PopCount => r.available > 0 && Write(s, s', t, r.(available := r.available - 1), PopAdvance)
    case PopAdvance => Write(s, s', t, r.(get := r.get + 1), PopWrap(r.get))
    case PopWrap(p) => Write(s, s', t, r.(get := Wrap(r.get, limit)), PopFetch(p))
    case PopFetch(p) => Write(s, s', t, r, PopClear(p, if p < limit then Some(r.buffer[p]) else None))
    case PopClear(p, x) => Write(s, s', t, r.(buffer := SetSlot(r.buffer, p, NULL)), PopUnlock(x))
    case PopUnlock(x) => Release(s, s', t, [], if x.Some? then [x.value] else [])
    case _ => false
  }

  /** An idle thread calls push or pop. */
  ghost predicate CallStep(s: State, s': State, t: nat, call: Pc) {
    && t in s.threads && s.threads[t].Idle? && (call.PushSpin? || call == PopSpin(POP_SPINS))
    && s' == s.(threads := s.threads[t := call])
  }

  ghost predicate Step(s: State, s': State, t: nat, call: Pc) {
    PushStep(s, s', t) || PopStep(s, s', t) || CallStep(s, s', t, call)
  }

  ghost predicate Next(s: State, s': State) {
    exists t, call :: Step(s, s', t, call)
  }

  /** State `i` of a run follows from the one before by one step. */
  ghost predicate StepAt(run: seq<State>, i: nat)
    requires 0 < i < |run|
  {
    Next(run[i - 1], run[i])
  }

  ghost predicate Run(limit: nat, run: seq<State>) {
    && |run| > 0 && Init(run[0], limit)
    && forall i :: 0 < i < |run| ==> StepAt(run, i)
  }

  // ----- invariant --------------------------------------------------------

  /** The fields a thread in its critical section has left behind so far, given the
      fields it found. */
  ghost predicate Progress(base: Ring<nat>, pc: Pc, ring: Ring<nat>)
    requires RingOk(base)
  {
    var limit := |base.buffer|;
    match pc
    case PushTest(_) => ring == base
    case PushAdvance(_) => base.available < limit && ring == base
    case PushWrap(_, p) => base.available < limit && p == base.put && ring == base.(put := base.put + 1)
    case PushStore(x, p) => base.available < limit && p == base.put && ring == base.(put := Wrap(base.put + 1, limit))
    case PushCount(x) => base.available < limit && ring == Put(base, x).(available := base.available)
    case PushUnlock(x, result) =>
      if result then base.available < limit && ring == Put(base, x) else base.available == limit && ring == base
    case PopTest => ring == base
    case PopCount => base.available > 0 && ring == base
    case PopAdvance => base.available > 0 && ring == base.(available := base.available - 1)
    case PopWrap(p) => base.available > 0 && p == base.get
      && ring == base.(available := base.available - 1, get := base.get + 1)
    case PopFetch(p) =>
      base.available > 0 && p == base.get
        && ring == base.(available := base.available - 1, get := Wrap(base.get + 1, limit))
    case PopClear(p, x) =>
      base.available > 0 && p == base.get && x == Some(base.buffer[p])
        && ring == base.(available := base.available - 1, get := Wrap(base.get + 1, limit))
    case PopUnlock(x) =>
      if base.available > 0 then x == Some(base.buffer[base.get]) && ring == Got(base, NULL)
      else x == None && ring == base
    case _ => false
  }

  ghost predicate Inv(s: State, limit: nat) {
    && RingOk(s.base) && |s.base.buffer| == limit
    && s.pushed == s.popped + Contents(s.base)
    && s.lock == (if s.holder.Some? then 1 else 0)
    && (forall t :: t in s.threads ==> (Critical(s.threads[t]) <==> s.holder == Some(t)))
    && (match s.holder
        case None => s.ring == s.base
        case Some(t) => t in s.threads && Progress(s.base, s.threads[t], s.ring))
  }

  lemma InitInv(s: State, limit: nat)
    requires Init(s, limit)
    ensures Inv(s, limit)
  {
    assert Contents(s.base) == [];
  }

  lemma PushKept(s: State, s': State, limit: nat, t: nat)
    requires Inv(s, limit) && PushStep(s, s', t)
    ensures Inv(s', limit)
  {
    if s.threads[t].PushUnlock? && s.threads[t].result {
      PutAppends(s.base, s.threads[t].task);
    }
  }

  /** The release after a pop hands over what was taken out. */
  lemma PopUnlockKept(s: State, s': State, limit: nat, t: nat)
    requires Inv(s, limit) && PopStep(s, s', t) && s.threads[t].PopUnlock?
    ensures Inv(s', limit)
  {
    var x := s.threads[t].fetched;
    if s.base.available > 0 { FetchedHead(s.base); }
    assert s'.base == s.ring && s'.popped == s.popped + (if x.Some? then [x.value] else []);
  }

  lemma FetchedHead(r: Ring<nat>)
    requires RingOk(r) && r.available > 0
    ensures RingOk(Got(r, NULL)) && Contents(r) == [r.buffer[r.get]] + Contents(Got(r, NULL))
  {
    GotRemoves(r, NULL);
    assert Contents(r) == [Contents(r)[0]] + Contents(r)[1..];
  }

  lemma PopKept(s: State, s': State, limit: nat, t: nat)
    requires Inv(s, limit) && PopStep(s, s', t)
    ensures Inv(s', limit)
  {
    if s.threads[t].PopUnlock? {
      PopUnlockKept(s, s', limit, t);
    } else if s.threads[t].PopSpin? {
      assert s'.ring == s.ring && s'.pushed == s.pushed;
    } else {
      assert s'.base == s.base && s'.pushed == s.pushed && s'.holder == Some(t);
    }
  }

  lemma CallKept(s: State, s': State, limit: nat, t: nat, call: Pc)
    requires Inv(s, limit) && CallStep(s, s', t, call)
    ensures Inv(s', limit)
  {
  }

  lemma NextKept(s: State, s': State, limit: nat)
    requires Inv(s, limit) && Next(s, s')
    ensures Inv(s', limit)
  {
    var t, call :| Step(s, s', t, call);
    if PushStep(s, s', t) { PushKept(s, s', limit, t); }
    else if PopStep(s, s', t) { PopKept(s, s', limit, t); }
    else { CallKept(s, s', limit, t, call); }
  }

  lemma {:induction false} RunSafe(limit: nat, run: seq<State>, i: nat)
    requires Run(limit, run) && i < |run|
    ensures Inv(run[i], limit)
  {
    if i == 0 {
      InitInv(run[0], limit);
    } else {
      RunSafe(limit, run, i - 1);
      assert StepAt(run, i);
      NextKept(run[i - 1], run[i], limit);
    }
  }

  // ----- refinement -------------------------------------------------------

  /** The queue as its users see it: the contents when the lock was last free. */
  ghost function Abstract(s: State): seq<nat>
    requires RingOk(s.base)
  {
    Contents(s.base)
  }

  ghost predicate Stutters(s: State, s': State) {
    RingOk(s.base) && RingOk(s'.base) && Abstract(s') == Abstract(s) && s'.pushed == s.pushed && s'.popped == s.popped
  }

  ghost predicate Pushes(s: State, s': State, limit: nat, x: nat) {
    && RingOk(s.base) && RingOk(s'.base) && Appends(Abstract(s), Abstract(s'), limit, x)
    && s'.pushed == s.pushed + [x] && s'.popped == s.popped
  }

  ghost predicate Pops(s: State, s': State, x: nat) {
    && RingOk(s.base) && RingOk(s'.base) && TakesHead(Abstract(s), Abstract(s'), x)
    && s'.pushed == s.pushed && s'.popped == s.popped + [x]
  }

  ghost predicate Refined(s: State, s': State, limit: nat) {
    Stutters(s, s') || (exists x :: Pushes(s, s', limit, x)) || (exists x :: Pops(s, s', x))
  }

  lemma PushRefines(s: State, s': State, limit: nat, t: nat)
    requires Inv(s, limit) && PushStep(s, s', t)
    ensures Stutters(s, s') || exists x :: Pushes(s, s', limit, x)
  {
    var pc := s.threads[t];
    if pc.PushUnlock? && pc.result {
      PutAppends(s.base, pc.task);
      assert Pushes(s, s', limit, pc.task);
    }
  }

  lemma PopRefines(s: State, s': State, limit: nat, t: nat)
    requires Inv(s, limit) && PopStep(s, s', t)
    ensures Stutters(s, s') || exists x :: Pops(s, s', x)
  {
    var pc := s.threads[t];
    if pc.PopUnlock? && pc.fetched.Some? {
      GotRemoves(s.base, NULL);
      assert Pops(s, s', pc.fetched.value);
    }
  }

  /** Step by step, any number of threads working on the fields do nothing but append to
      a bounded queue and take its head, each at the release of the lock. */
  lemma Refines(limit: nat, run: seq<State>, i: nat)
    requires Run(limit, run) && 0 < i < |run|
    ensures Refined(run[i - 1], run[i], limit)
  {
    RunSafe(limit, run, i - 1);
    assert StepAt(run, i);
    NextRefines(run[i - 1], run[i], limit);
  }

  lemma NextRefines(s: State, s': State, limit: nat)
    requires Inv(s, limit) && Next(s, s')
    ensures Refined(s, s', limit)
  {
    var t, call :| Step(s, s', t, call);
    if PushStep(s, s', t) { PushRefines(s, s', limit, t); }
    else if PopStep(s, s', t) { PopRefines(s, s', limit, t); }
  }

  // ----- guarantees -------------------------------------------------------

  /** At most one thread is in its critical section. */
  lemma MutualExclusion(limit: nat, run: seq<State>, i: nat, t: nat, u: nat)
    requires Run(limit, run) && i < |run| && t in run[i].threads && u in run[i].threads
    requires Critical(run[i].threads[t]) && Critical(run[i].threads[u])
    ensures t == u
  {
    RunSafe(limit, run, i);
  }

  /** The popped tasks are always a prefix of the pushed ones, at most `limit` tasks
      are in between, and whenever the lock is free the fields hold just those. */
  lemma BoundedFifo(limit: nat, run: seq<State>, i: nat)
    requires Run(limit, run) && i < |run|
    ensures run[i].popped <= run[i].pushed && |run[i].pushed| - |run[i].popped| <= limit
    ensures run[i].lock == 0 ==> RingOk(run[i].ring) && run[i].pushed == run[i].popped + Contents(run[i].ring)
  {
    RunSafe(limit, run, i);
  }

  /** About to return without having moved a task. */
  predicate Fails(pc: Pc) {
    (pc.PushUnlock? && !pc.result) || (pc.PopUnlock? && pc.fetched.None?) || pc.PopSpin?
  }

  /** A call fails only for its reason and without a trace: a push because the queue
      was full, a pop because it was empty, or because its tries were used up while
      another thread held the lock. */
  lemma FailureLeavesNoTrace(limit: nat, run: seq<State>, i: nat, t: nat)
    requires Run(limit, run) && 0 < i < |run| && t in run[i - 1].threads && t in run[i].threads
    requires run[i].threads[t].Idle? && (PushStep(run[i - 1], run[i], t) || PopStep(run[i - 1], run[i], t))
    requires Fails(run[i - 1].threads[t])
    ensures run[i].ring == run[i - 1].ring && run[i].pushed == run[i - 1].pushed && run[i].popped == run[i - 1].popped
    ensures run[i - 1].threads[t].PushUnlock? ==> |run[i].pushed| - |run[i].popped| == limit
    ensures run[i - 1].threads[t].PopUnlock? ==> run[i].pushed == run[i].popped
    ensures run[i - 1].threads[t].PopSpin? ==> run[i - 1].lock == 1
  {
    RunSafe(limit, run, i - 1);
    var s := run[i - 1];
    if s.threads[t].PopUnlock? && s.base.available > 0 {
      GotRemoves(s.base, NULL);
    }
  }
}
