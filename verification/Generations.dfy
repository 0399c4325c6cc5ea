/** Handles of pooled objects under concurrent allocation and deallocation. A handle
    is a slot id together with the slot's tag; the tag is bumped on deallocation,
    before the id becomes free again. A step is one section under the id pool's
    lock or one write to a field of a slot. */
module Generations {
  import opened Common
  import opened Handles
  import Pools

  datatype Pc =
    | Idle
    | Stamping(id: nat)                   // allocate: the id is taken, the slot not yet stamped
    | Clearing(slot: nat, poolId: nat)    // deallocate: the pool id has been read
    | Bumping(slot: nat, poolId: nat)
    | Returning(slot: nat, poolId: nat)

  /** What a slot is used for. */
  datatype Role =
    | InPool
    | Reserved(thread: nat)
    | Live
    | Leaving(thread: nat)

  datatype State = State(
    free: seq<nat>,                       // the id pool
    ids: map<nat, nat>,                   // handle.id of each slot
    tags: map<nat, nat>,                  // handle.tag of each slot
    threads: map<nat, Pc>,
    // history
    role: map<nat, Role>,
    taken: seq<nat>,                      // ids in the order in which they were taken
    returned: seq<nat>,                   // ids in the order in which they became free again
    bumps: map<nat, nat>,                 // deallocations of each slot
    issued: set<Issue>,
    retired: set<Issue>,                  // issues whose slot has been bumped since
    owned: set<Issue>)                    // issues not yet passed to deallocate

  predicate IsValid(s: State, capacity: nat, h: Handle) {
    Passes(s.tags, capacity, h)
  }

  predicate IsSlot(id: nat, capacity: nat) {
    0 < id <= capacity
  }

  ghost predicate Init(s: State, capacity: nat) {
    && Distinct(s.free) && (forall id :: id in s.free <==> IsSlot(id, capacity))
    && (forall id :: id in s.ids <==> IsSlot(id, capacity)) && (forall id :: id in s.tags <==> IsSlot(id, capacity))
    && (forall id :: id in s.role <==> IsSlot(id, capacity)) && (forall id :: id in s.bumps <==> IsSlot(id, capacity))
    && (forall id :: id in s.tags ==> s.tags[id] == 0) && (forall id :: id in s.bumps ==> s.bumps[id] == 0)
    && (forall id :: id in s.role ==> s.role[id] == InPool)
    && (forall t :: t in s.threads ==> s.threads[t].Idle?)
    && s.taken == [] && s.returned == [] && s.issued == {} && s.retired == {} && s.owned == {}
  }

  // ----- steps ------------------------------------------------------------

  predicate At(s: State, t: nat) {
    t in s.threads
  }

  /** Allocate, under the lock: the first free id, if there is one. */
  ghost predicate TakeStep(s: State, s': State, t: nat) {
    At(s, t) && s.threads[t].Idle? && s.free != [] &&
    var id := s.free[0];
    s' == s.(free := s.free[1..], role := s.role[id := Reserved(t)], threads := s.threads[t := Stamping(id)],
             taken := s.taken + [id])
  }

  /** Allocate: the slot gets its id, and the caller its handle. */
  ghost predicate StampStep(s: State, s': State, t: nat) {
    At(s, t) && s.threads[t].Stamping? && s.threads[t].id in s.bumps &&
    var id := s.threads[t].id; var issue := Issue(id, s.bumps[id]);
    s' == s.(ids := s.ids[id := id], role := s.role[id := Live], threads := s.threads[t := Idle],
             issued := s.issued + {issue}, owned := s.owned + {issue})
  }

  /** Deallocate: the caller gives up an object it owns. */
  ghost predicate DropStep(s: State, s': State, t: nat, issue: Issue) {
    At(s, t) && s.threads[t].Idle? && issue in s.owned && issue.id in s.ids &&
    s' == s.(owned := s.owned - {issue}, role := s.role[issue.id := Leaving(t)],
             threads := s.threads[t := Clearing(issue.id, s.ids[issue.id])])
  }

  ghost predicate ClearStep(s: State, s': State, t: nat) {
    At(s, t) && s.threads[t].Clearing? &&
    var slot := s.threads[t].slot;
    s' == s.(ids := s.ids[slot := 0], threads := s.threads[t := Bumping(slot, s.threads[t].poolId)])
  }

  ghost predicate BumpStep(s: State, s': State, t: nat) {
    At(s, t) && s.threads[t].Bumping? && s.threads[t].slot in s.tags && s.threads[t].slot in s.bumps &&
    var slot := s.threads[t].slot;
    s' == s.(tags := s.tags[slot := (s.tags[slot] + 1) % UINT_RANGE], bumps := s.bumps[slot := s.bumps[slot] + 1],
             retired := s.retired + {Issue(slot, s.bumps[slot])},
             threads := s.threads[t := Returning(slot, s.threads[t].poolId)])
  }

  /** Deallocate, under the lock: the id becomes free. */
  ghost predicate ReturnStep(s: State, s': State, capacity: nat, t: nat) {
    At(s, t) && s.threads[t].Returning? &&
    var slot := s.threads[t].slot;
    s' == s.(free := if |s.free| < capacity then s.free + [s.threads[t].poolId] else s.free,
             role := s.role[slot := InPool], threads := s.threads[t := Idle],
             returned := s.returned + [s.threads[t].poolId])
  }

  ghost predicate Step(s: State, s': State, capacity: nat, t: nat, issue: Issue) {
    || TakeStep(s, s', t) || StampStep(s, s', t) || DropStep(s, s', t, issue) || ClearStep(s, s', t)
    || BumpStep(s, s', t) || ReturnStep(s, s', capacity, t)
  }

  ghost predicate Next(s: State, s': State, capacity: nat) {
    exists t, issue :: Step(s, s', capacity, t, issue)
  }

  /** State `i` of a run follows from the one before by one step. */
  ghost predicate StepAt(capacity: nat, run: seq<State>, i: nat)
    requires 0 < i < |run|
  {
    Next(run[i - 1], run[i], capacity)
  }

  ghost predicate Run(capacity: nat, run: seq<State>) {
    && |run| > 0 && Init(run[0], capacity)
    && forall i :: 0 < i < |run| ==> StepAt(capacity, run, i)
  }

  // ----- invariant --------------------------------------------------------

  /** The role a thread's program counter claims for a slot. */
  ghost predicate Claims(s: State, t: nat, pc: Pc) {
    match pc
    case Idle => true
    case Stamping(id) => id in s.role && s.role[id] == Reserved(t)
    case Clearing(slot, p) => slot in s.role && s.role[slot] == Leaving(t) && p == slot && slot in s.bumps
      && Issue(slot, s.bumps[slot]) in s.issued
    case Bumping(slot, p) => slot in s.role && s.role[slot] == Leaving(t) && p == slot && slot in s.bumps
      && Issue(slot, s.bumps[slot]) in s.issued
    case Returning(slot, p) =>
      slot in s.role && s.role[slot] == Leaving(t) && p == slot && slot in s.bumps
        && Issue(slot, s.bumps[slot]) !in s.issued
  }

  /** The slots are defined, and the free ones are exactly those in the pool. */
  ghost predicate Slots(s: State, capacity: nat) {
    && (forall id :: id in s.ids <==> IsSlot(id, capacity)) && (forall id :: id in s.tags <==> IsSlot(id, capacity))
    && (forall id :: id in s.role <==> IsSlot(id, capacity)) && (forall id :: id in s.bumps <==> IsSlot(id, capacity))
    && Distinct(s.free)
    && (forall id :: id in s.free <==> id in s.role && s.role[id].InPool?)
    && (forall id :: id in s.tags && id in s.bumps ==> s.tags[id] == s.bumps[id] % UINT_RANGE)
    && (forall t :: t in s.threads ==> Claims(s, t, s.threads[t]))
  }

  /** The issue a slot is currently used under. */
  predicate Current(s: State, i: Issue) {
    i.id in s.bumps && i.generation == s.bumps[i.id]
  }

  ghost predicate Issues(s: State) {
    && (forall i :: i in s.issued ==> i.id in s.bumps && i.id in s.role && i.generation <= s.bumps[i.id])
    && (forall i :: i in s.issued ==> (i in s.retired <==> i.generation < s.bumps[i.id]))
    && (forall i :: i in s.issued && Current(s, i) ==> s.role[i.id].Live? || s.role[i.id].Leaving?)
    && (forall i :: i in s.owned ==>
          i in s.issued && Current(s, i) && s.role[i.id].Live? && i.id in s.ids && s.ids[i.id] == i.id)
    && (forall i :: i in s.retired ==> i in s.issued)
  }

  lemma TakeSlots(s: State, s': State, capacity: nat, t: nat)
    requires Slots(s, capacity) && Issues(s) && TakeStep(s, s', t)
    ensures Slots(s', capacity)
  {
    assert s.free == [s.free[0]] + s'.free;
  }

  lemma TakeIssues(s: State, s': State, capacity: nat, t: nat)
    requires Slots(s, capacity) && Issues(s) && TakeStep(s, s', t)
    ensures Issues(s')
  {
  }

  lemma StampSlots(s: State, s': State, capacity: nat, t: nat)
    requires Slots(s, capacity) && Issues(s) && StampStep(s, s', t)
    ensures Slots(s', capacity)
  {
  }

  lemma StampIssues(s: State, s': State, capacity: nat, t: nat)
    requires Slots(s, capacity) && Issues(s) && StampStep(s, s', t)
    ensures Issues(s')
  {
  }

  lemma DropSlots(s: State, s': State, capacity: nat, t: nat, issue: Issue)
    requires Slots(s, capacity) && Issues(s) && DropStep(s, s', t, issue)
    ensures Slots(s', capacity)
  {
  }

  lemma DropIssues(s: State, s': State, capacity: nat, t: nat, issue: Issue)
    requires Slots(s, capacity) && Issues(s) && DropStep(s, s', t, issue)
    ensures Issues(s')
  {
  }

  lemma ClearSlots(s: State, s': State, capacity: nat, t: nat)
    requires Slots(s, capacity) && Issues(s) && ClearStep(s, s', t)
    ensures Slots(s', capacity)
  {
  }

  lemma ClearIssues(s: State, s': State, capacity: nat, t: nat)
    requires Slots(s, capacity) && Issues(s) && ClearStep(s, s', t)
    ensures Issues(s')
  {
  }

  /** The tag follows the number of deallocations. */
  lemma TagStep(bumps: nat)
    ensures (bumps % UINT_RANGE + 1) % UINT_RANGE == (bumps + 1) % UINT_RANGE
  {
  }

  lemma BumpClaims(s: State, s': State, capacity: nat, t: nat)
    requires Slots(s, capacity) && Issues(s) && BumpStep(s, s', t)
    ensures forall u :: u in s'.threads ==> Claims(s', u, s'.threads[u])
  {
    forall u | u in s'.threads ensures Claims(s', u, s'.threads[u]) {
      assert Claims(s, u, s.threads[u]) && Claims(s, t, s.threads[t]);
    }
  }

  lemma BumpSlots(s: State, s': State, capacity: nat, t: nat)
    requires Slots(s, capacity) && Issues(s) && BumpStep(s, s', t)
    ensures Slots(s', capacity)
  {
    TagStep(s.bumps[s.threads[t].slot]);
    BumpClaims(s, s', capacity, t);
  }

  lemma BumpIssues(s: State, s': State, t: nat)
    requires Issues(s) && BumpStep(s, s', t) && Claims(s, t, s.threads[t])
    ensures Issues(s')
  {
  }

  /** The id pool has room for an id that is not in it. */
  lemma RoomToReturn(s: State, capacity: nat, slot: nat)
    requires Slots(s, capacity) && slot in s.role && !s.role[slot].InPool?
    ensures |s.free| < capacity
  {
    Pools.RoomFor(s.free, capacity, slot);
  }

  lemma ReturnSlots(s: State, s': State, capacity: nat, t: nat)
    requires Slots(s, capacity) && Issues(s) && ReturnStep(s, s', capacity, t)
    ensures Slots(s', capacity)
  {
    RoomToReturn(s, capacity, s.threads[t].slot);
  }

  lemma ReturnIssues(s: State, s': State, capacity: nat, t: nat)
    requires Slots(s, capacity) && Issues(s) && ReturnStep(s, s', capacity, t)
    ensures Issues(s')
  {
  }

  lemma NextKept(s: State, s': State, capacity: nat)
    requires Slots(s, capacity) && Issues(s) && Next(s, s', capacity)
    ensures Slots(s', capacity) && Issues(s')
  {
    var t, issue :| Step(s, s', capacity, t, issue);
    SlotsKept(s, s', capacity, t, issue);
    IssuesKept(s, s', capacity, t, issue);
  }

  lemma SlotsKept(s: State, s': State, capacity: nat, t: nat, issue: Issue)
    requires Slots(s, capacity) && Issues(s) && Step(s, s', capacity, t, issue)
    ensures Slots(s', capacity)
  {
    if TakeStep(s, s', t) { TakeSlots(s, s', capacity, t); }
    else if StampStep(s, s', t) { StampSlots(s, s', capacity, t); }
    else if DropStep(s, s', t, issue) { DropSlots(s, s', capacity, t, issue); }
    else if ClearStep(s, s', t) { ClearSlots(s, s', capacity, t); }
    else if BumpStep(s, s', t) { BumpSlots(s, s', capacity, t); }
    else { ReturnSlots(s, s', capacity, t); }
  }

  lemma IssuesKept(s: State, s': State, capacity: nat, t: nat, issue: Issue)
    requires Slots(s, capacity) && Issues(s) && Step(s, s', capacity, t, issue)
    ensures Issues(s')
  {
    if TakeStep(s, s', t) { TakeIssues(s, s', capacity, t); }
    else if StampStep(s, s', t) { StampIssues(s, s', capacity, t); }
    else if DropStep(s, s', t, issue) { DropIssues(s, s', capacity, t, issue); }
    else if ClearStep(s, s', t) { ClearIssues(s, s', capacity, t); }
    else if BumpStep(s, s', t) { BumpIssues(s, s', t); }
    else { ReturnIssues(s, s', capacity, t); }
  }

  lemma {:induction false} RunSafe(capacity: nat, run: seq<State>, i: nat)
    requires Run(capacity, run) && i < |run|
    ensures Slots(run[i], capacity) && Issues(run[i])
  {
    if i > 0 {
      RunSafe(capacity, run, i - 1);
      assert StepAt(capacity, run, i);
      NextKept(run[i - 1], run[i], capacity);
    }
  }

  // ----- guarantees -------------------------------------------------------

  /** A handle that was given out passes the check exactly when the number of
      deallocations of its slot since then is a multiple of 2^32. */
  lemma ValidIff(capacity: nat, run: seq<State>, k: nat, i: Issue)
    requires Run(capacity, run) && k < |run| && i in run[k].issued
    ensures i.id in run[k].bumps && i.generation <= run[k].bumps[i.id]
    ensures IsValid(run[k], capacity, i.AsHandle()) <==> (run[k].bumps[i.id] - i.generation) % UINT_RANGE == 0
  {
    RunSafe(capacity, run, k);
    SameResidue(run[k].bumps[i.id], i.generation);
  }

  lemma SmallMultiple(d: nat)
    requires d < UINT_RANGE
    ensures d % UINT_RANGE == 0 <==> d == 0
  {
  }

  /** As long as a slot has been deallocated fewer than 2^32 times since, a handle is
      valid from the moment it is given out until its object is deallocated. */
  lemma ValidWhileLive(capacity: nat, run: seq<State>, k: nat, i: Issue)
    requires Run(capacity, run) && k < |run| && i in run[k].issued
    requires i.id in run[k].bumps && run[k].bumps[i.id] - i.generation < UINT_RANGE
    ensures IsValid(run[k], capacity, i.AsHandle()) <==> i !in run[k].retired
    ensures i in run[k].owned ==> IsValid(run[k], capacity, i.AsHandle())
  {
    ValidIff(capacity, run, k, i);
    SmallMultiple(run[k].bumps[i.id] - i.generation);
    Unretired(capacity, run, k, i);
  }

  lemma Unretired(capacity: nat, run: seq<State>, k: nat, i: Issue)
    requires Run(capacity, run) && k < |run| && i in run[k].issued
    ensures i.id in run[k].bumps && (i !in run[k].retired <==> i.generation == run[k].bumps[i.id])
    ensures i in run[k].owned ==> i !in run[k].retired
  {
    RunSafe(capacity, run, k);
    UnretiredIn(run[k], i);
  }

  lemma UnretiredIn(s: State, i: Issue)
    requires Issues(s) && i in s.issued
    ensures i.id in s.bumps && (i !in s.retired <==> i.generation == s.bumps[i.id])
    ensures i in s.owned ==> i !in s.retired
  {
  }

  /** Two objects in use never share a slot, and a slot in use is neither free nor
      being written by a thread. */
  lemma SlotsExclusive(capacity: nat, run: seq<State>, k: nat, i: Issue, j: Issue, t: nat)
    requires Run(capacity, run) && k < |run| && i in run[k].owned
    ensures j in run[k].owned && j.id == i.id ==> j == i
    ensures i.id !in run[k].free
    ensures t in run[k].threads ==>
              match run[k].threads[t]
              case Idle => true
              case Stamping(id) => id != i.id
              case Clearing(slot, _) => slot != i.id
              case Bumping(slot, _) => slot != i.id
              case Returning(slot, _) => slot != i.id
  {
    RunSafe(capacity, run, k);
    if t in run[k].threads {
      assert Claims(run[k], t, run[k].threads[t]);
    }
  }

  // ----- the order of reuse -----------------------------------------------

  lemma TakeOrdered(s: State, s': State, t: nat)
    requires TakeStep(s, s', t)
    ensures s'.taken + s'.free == s.taken + s.free && s'.returned == s.returned
  {
    assert s.free == [s.free[0]] + s.free[1..];
  }

  lemma ReturnOrdered(s: State, s': State, capacity: nat, t: nat)
    requires Slots(s, capacity) && ReturnStep(s, s', capacity, t)
    ensures s'.taken == s.taken && s'.returned == s.returned + [s.threads[t].slot]
    ensures s'.free == s.free + [s.threads[t].slot]
  {
    assert Claims(s, t, s.threads[t]);
    RoomToReturn(s, capacity, s.threads[t].slot);
  }

  /** Besides these two, no step takes or returns an id. */
  lemma OrderKept(s: State, s': State, capacity: nat, before: seq<nat>)
    requires Slots(s, capacity) && Next(s, s', capacity) && s.taken + s.free == before + s.returned
    ensures s'.taken + s'.free == before + s'.returned
  {
    var t, issue :| Step(s, s', capacity, t, issue);
    if TakeStep(s, s', t) {
      TakeOrdered(s, s', t);
    } else if ReturnStep(s, s', capacity, t) {
      ReturnOrdered(s, s', capacity, t);
      var id := [s.threads[t].slot];
      assert s.taken + (s.free + id) == s.taken + s.free + id && before + (s.returned + id) == before + s.returned + id;
    } else {
      assert s'.taken == s.taken && s'.free == s.free && s'.returned == s.returned;
    }
  }

  /** The ids taken and then the free ones are the ids the pool started with and then those
      returned, in this order: the id that has been free for longest is the next one taken. */
  lemma {:induction false} OldestFirst(capacity: nat, run: seq<State>, k: nat)
    requires Run(capacity, run) && k < |run|
    ensures run[k].taken + run[k].free == run[0].free + run[k].returned
  {
    if k == 0 {
      assert [] + run[0].free == run[0].free == run[0].free + [];
    } else {
      OldestFirst(capacity, run, k - 1);
      RunSafe(capacity, run, k - 1);
      assert StepAt(capacity, run, k);
      OrderKept(run[k - 1], run[k], capacity, run[0].free);
    }
  }

  lemma ReturnedStep(s: State, s': State, capacity: nat)
    requires Next(s, s', capacity)
    ensures s.returned <= s'.returned
  {
    var t, issue :| Step(s, s', capacity, t, issue);
    if !ReturnStep(s, s', capacity, t) { assert s'.returned == s.returned; }
  }

  lemma {:induction false} ReturnedGrows(capacity: nat, run: seq<State>, k: nat, m: nat)
    requires Run(capacity, run) && k <= m < |run|
    ensures run[k].returned <= run[m].returned
  {
    if k < m {
      ReturnedGrows(capacity, run, k, m - 1);
      assert StepAt(capacity, run, m);
      ReturnedStep(run[m - 1], run[m], capacity);
    }
  }

  /** What is free is taken next, in this order. */
  lemma FreeNext(capacity: nat, run: seq<State>, k: nat, m: nat, j: nat)
    requires Run(capacity, run) && k <= m < |run| && |run[k].taken| <= j < |run[m].taken|
    ensures j < |run[k].taken| + |run[k].free| ==> run[m].taken[j] == run[k].free[j - |run[k].taken|]
  {
    OldestFirst(capacity, run, k);
    OldestFirst(capacity, run, m);
    ReturnedGrows(capacity, run, k, m);
    var all := run[0].free + run[m].returned;
    if j < |run[k].taken| + |run[k].free| {
      assert (run[0].free + run[k].returned)[j] == all[j];
      assert (run[m].taken + run[m].free)[j] == all[j];
    }
  }

  lemma ReturningTaken(capacity: nat, run: seq<State>, k: nat, t: nat)
    requires Run(capacity, run) && k < |run| && At(run[k], t) && run[k].threads[t].Returning?
    ensures run[k].threads[t].slot !in run[k].free
  {
    RunSafe(capacity, run, k);
    assert Claims(run[k], t, run[k].threads[t]);
  }

  /** An id that becomes free is not handed out again before every id that was free then: if
      it is the id number `j` to be handed out, all of them have been, in their order. */
  lemma ReusedLast(capacity: nat, run: seq<State>, k: nat, m: nat, t: nat, j: nat)
    requires Run(capacity, run) && k < m < |run| && ReturnStep(run[k], run[k + 1], capacity, t)
    requires |run[k].taken| <= j < |run[m].taken| && run[m].taken[j] == run[k].threads[t].slot
    ensures var n := |run[k].taken|; n + |run[k].free| <= j && run[m].taken[n..n + |run[k].free|] == run[k].free
  {
    var n := |run[k].taken|;
    ReturningTaken(capacity, run, k, t);
    FreeNext(capacity, run, k, m, j);
    forall i | n <= i < n + |run[k].free| ensures run[m].taken[i] == run[k].free[i - n] {
      FreeNext(capacity, run, k, m, i);
    }
  }
}
