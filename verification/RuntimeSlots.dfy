/** Which task lives in which slot of the pool, and what the main loops of the workers look
    up there. */
module RuntimeSlots {
  import opened Common
  import opened Runtime
  import opened RuntimeGroups

  // ----- slots ------------------------------------------------------------

  /** Neither its failed start nor a collector has deleted the task. */
  predicate Alive(task: Task) {
    !task.producer.Failed? && !DeletedPhase(task.phase)
  }

  /** A task lives in its slot until it is deleted, and not afterwards. */
  predicate LivesIn(slots: map<nat, nat>, slot: nat, t: nat, task: Task) {
    Alive(task) <==> slot in slots && slots[slot] == t
  }

  ghost predicate Housed(s: State) {
    forall t :: t in s.tasks && t in s.attrs ==> LivesIn(s.slots, s.attrs[t].slot, t, s.tasks[t])
  }

  /** The step moves no task in or out. */
  ghost predicate HousesUntouched(s: State, s': State) {
    && s'.slots == s.slots && s'.attrs == s.attrs
    && forall t :: t in s'.tasks ==> t in s.tasks && (Alive(s'.tasks[t]) <==> Alive(s.tasks[t]))
  }

  lemma UntouchedHoused(s: State, s': State)
    requires Housed(s) && HousesUntouched(s, s')
    ensures Housed(s')
  {
    forall t | t in s'.tasks && t in s'.attrs ensures LivesIn(s'.slots, s'.attrs[t].slot, t, s'.tasks[t]) {
      assert LivesIn(s.slots, s.attrs[t].slot, t, s.tasks[t]);
    }
  }

  /** Only the record of task `t` changes. */
  lemma TaskHouses(s: State, s': State, t: nat)
    requires s'.slots == s.slots && s'.attrs == s.attrs && t in s.tasks && t in s'.tasks
    requires s'.tasks == s.tasks[t := s'.tasks[t]] && (Alive(s'.tasks[t]) <==> Alive(s.tasks[t]))
    ensures HousesUntouched(s, s')
  {
  }

  lemma CreateHoused(c: Config, s: State, s': State, t: nat, attr: Attributes)
    requires Housed(s) && CreateStep(c, s, s', t, attr)
    ensures Housed(s')
  {
    forall u | u in s'.tasks && u in s'.attrs ensures LivesIn(s'.slots, s'.attrs[u].slot, u, s'.tasks[u]) {
      if u != t { assert LivesIn(s.slots, s.attrs[u].slot, u, s.tasks[u]); }
    }
  }

  /** Task `t` is deleted and its slot becomes free. */
  lemma MoveOut(s: State, s': State, t: nat)
    requires Housed(s) && Exists(s, t) && t in s'.tasks && s'.attrs == s.attrs
    requires s'.slots == s.slots - {s.attrs[t].slot}
    requires s'.tasks == s.tasks[t := s'.tasks[t]] && Alive(s.tasks[t]) && !Alive(s'.tasks[t])
    ensures Housed(s')
  {
    assert LivesIn(s.slots, s.attrs[t].slot, t, s.tasks[t]);
    forall u | u in s'.tasks && u in s'.attrs ensures LivesIn(s'.slots, s'.attrs[u].slot, u, s'.tasks[u]) {
      assert LivesIn(s.slots, s.attrs[u].slot, u, s.tasks[u]);
    }
  }

  // ----- callbacks --------------------------------------------------------

  /** A worker has taken the instance. */
  predicate PastPop(st: Stage) {
    st.Popped? || st.Executing? || st.Settling? || st.Done? || st.Abandoned?
  }

  predicate Reporting(st: Stage) {
    st.Settling? && st.spc.Report?
  }

  /** Only instances taken by main loops lead to a lookup. */
  ghost predicate Reported(s: State) {
    && (forall e :: e in s.mains ==> e in s.stage && PastPop(s.stage[e]))
    && (forall e :: e in s.stage && Reporting(s.stage[e]) ==> e in s.mains)
    && (forall i {:trigger s.lookups[i]} :: 0 <= i < |s.lookups| ==> s.lookups[i].entry in s.mains)
  }

  /** A change of one instance that no main loop notices. */
  lemma StageReported(s: State, s': State, e: Entry)
    requires Reported(s) && s'.mains == s.mains && s'.lookups == s.lookups
    requires e in s'.stage && s'.stage == s.stage[e := s'.stage[e]]
    requires e in s.mains ==> PastPop(s'.stage[e])
    requires Reporting(s'.stage[e]) ==> e in s.mains
    ensures Reported(s')
  {
  }

  lemma SameReported(s: State, s': State)
    requires Reported(s) && s'.mains == s.mains && s'.lookups == s.lookups && s'.stage == s.stage
    ensures Reported(s')
  {
  }

  lemma CreateReported(c: Config, s: State, s': State, t: nat, attr: Attributes)
    requires Reported(s) && (forall e :: e in s.stage ==> e.task in s.attrs) && CreateStep(c, s, s', t, attr)
    ensures Reported(s')
  {
  }

  lemma PopReported(c: Config, s: State, s': State, q: QueueId, w: nat, inspect: bool)
    requires Reported(s) && PopStep(c, s, s', q, w, inspect)
    ensures Reported(s')
  {
  }

  lemma ReportReported(s: State, s': State, e: Entry)
    requires Reported(s) && ReportStep(s, s', e)
    ensures Reported(s')
  {
    assert e in s.mains;
  }
}
