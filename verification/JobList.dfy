/** The list of actions that implement a job, and the choice among them when a task is
    started. */
module JobList {
  import opened Common
  import opened Handles
  import Generations

  const INVALID := Handle(0, 0)

  // ----- the list ---------------------------------------------------------

  /** The actions array of a job; entries from `count` on are left over. */
  datatype Listing = Listing(slots: seq<Handle>, count: nat)

  function Listed(l: Listing): seq<Handle>
    requires l.count <= |l.slots|
  {
    l.slots[..l.count]
  }

  function Added(l: Listing, h: Handle): Listing {
    if l.count < |l.slots| then Listing(l.slots[l.count := h], l.count + 1) else l
  }

  /** Every entry but the last that is `h` gives way to the last; then the last is cut
      off. The count is unsigned. */
  function Removed(l: Listing, h: Handle): Listing
    requires l.count <= |l.slots|
  {
    if l.count == 0 then l.(count := UINT_RANGE - 1)
    else Listing(Swapped(l.slots, h, l.count - 1, l.count - 1), l.count - 1)
  }

  /** The first `n` slots with `h` replaced by the content of slot `last`. */
  function Swapped(slots: seq<Handle>, h: Handle, n: nat, last: nat): seq<Handle>
    requires n <= last < |slots|
  {
    seq(|slots|, i requires 0 <= i < |slots| => if i < n && slots[i] == h then slots[last] else slots[i])
  }

  /** Removal of a listed action removes just that action; removal of any other action
      removes the last one instead. */
  lemma RemovedMembers(l: Listing, h: Handle)
    requires 0 < l.count <= |l.slots| && Distinct(Listed(l))
    ensures var r := Removed(l, h);
            && Distinct(Listed(r)) && |Listed(r)| == |Listed(l)| - 1
            && forall x :: x in Listed(r) <==>
                 x in Listed(l) && x != (if h in Listed(l) then h else l.slots[l.count - 1])
  {
    var before, r := Listed(l), Removed(l, h);
    var after, last := Listed(r), l.count - 1;
    assert forall i :: 0 <= i < last ==> after[i] == if before[i] == h then before[last] else before[i];
    var gone := if h in before then h else before[last];
    forall x ensures x in after <==> x in before && x != gone {
      if x in before && x != gone {
        var i :| 0 <= i < |before| && before[i] == x;
        if i == last {
          var k :| 0 <= k < |before| && before[k] == h;
          assert after[k] == x;
        } else {
          assert after[i] == x;
        }
      }
    }
  }

  /** Where the entries are after a removal: the former last entry takes the place of the
      removed one and all others stay; without a removed one before it the last is cut off. */
  lemma RemovedPlaces(l: Listing, h: Handle)
    requires 0 < l.count <= |l.slots| && Distinct(Listed(l))
    ensures var before, after, last := Listed(l), Listed(Removed(l, h)), l.count - 1;
            && (forall i :: 0 <= i < last && before[i] == h ==> after == before[..last][i := before[last]])
            && (h !in before[..last] ==> after == before[..last])
  {
    var before, after, last := Listed(l), Listed(Removed(l, h)), l.count - 1;
    assert forall i :: 0 <= i < last ==> after[i] == if before[i] == h then before[last] else before[i];
    if h !in before[..last] {
      assert forall i :: 0 <= i < last ==> before[..last][i] == before[i];
    }
  }

  class Job {
    const actions: array<Handle>
    var numActions: nat

    /** The count did not wrap around. */
    ghost predicate Valid()
      reads this
    {
      numActions <= actions.Length
    }

    ghost function View(): Listing
      reads this, actions
    {
      Listing(actions[..], numActions)
    }

    constructor (maxActions: nat)
      ensures Valid() && fresh(actions) && View() == Empty(maxActions)
    {
      actions := new Handle[maxActions](_ => INVALID);
      numActions := 0;
      new;
      assert actions[..] == Empty(maxActions).slots;
    }

    method AddAction(h: Handle) returns (ok: bool)
      modifies this`numActions, actions
      ensures ok == (old(numActions) < actions.Length)
      ensures View() == Added(old(View()), h)
      ensures old(Valid()) ==> Valid() && Listed(View()) == old(Listed(View())) + (if ok then [h] else [])
    {
      ok := true;
      if actions.Length > numActions {
        actions[numActions] := h;
        numActions := numActions + 1;
      } else {
        ok := false;
      }
    }

    method RemoveAction(h: Handle)
      requires Valid()
      modifies this`numActions, actions
      ensures View() == Removed(old(View()), h)
      ensures old(numActions) > 0 && Distinct(old(Listed(View()))) ==>
                var before, last := old(Listed(View())), old(numActions) - 1;
                && Valid() && numActions == last && actions[last..] == old(actions[last..])
                && (h !in before[..last] ==> Listed(View()) == before[..last])
                && (forall i :: 0 <= i < last && before[i] == h ==> Listed(View()) == before[..last][i := before[last]])
    {
      if numActions == 0 {
        numActions := UINT_RANGE - 1;
        return;
      }
      var ii := 0;
      while ii + 1 < numActions
        invariant ii < numActions == old(numActions) <= actions.Length
        invariant actions[..] == Swapped(old(actions[..]), h, ii, numActions - 1)
      {
        if actions[ii] == h {
          actions[ii] := actions[numActions - 1];
        }
        ii := ii + 1;
      }
      numActions := numActions - 1;
      if Distinct(old(Listed(View()))) { RemovedPlaces(old(View()), h); }
    }

    /** Load balancing. The handles that pass the pool's check are `valid`; `tasks` are
        the task counters in the pool's slots, read whether or not the check passes. Slot 0
        is read without a test, so a list without slots is read outside: not `defined`. */
    method ChooseAction(valid: set<Handle>, tasks: map<nat, int>) returns (defined: bool, choice: Option<Handle>)
      requires Valid() && forall i :: 0 <= i < actions.Length ==> actions[i].id in tasks
      ensures defined <==> actions.Length > 0
      ensures defined ==> exists m: nat :: Least(View(), valid, tasks, m)
                                           && choice == if actions[m] in valid then Some(actions[m]) else None
    {
      if actions.Length == 0 {
        return false, None;
      }
      defined := true;
      var index := 0;
      for ii := 0 to numActions
        invariant index < actions.Length && Candidate(View(), valid, index) && index <= ii
        invariant forall i :: 0 <= i < ii && Candidate(View(), valid, i) ==>
                    tasks[actions[index].id] <= tasks[actions[i].id]
        invariant forall i :: 0 <= i < index && Candidate(View(), valid, i) ==>
                    tasks[actions[index].id] < tasks[actions[i].id]
      {
        if actions[ii] in valid {
          if tasks[actions[index].id] > tasks[actions[ii].id] {
            index := ii;
          }
        }
      }
      assert Least(View(), valid, tasks, index);
      choice := if actions[index] in valid then Some(actions[index]) else None;
    }
  }

  // ----- the choice -------------------------------------------------------

  /** The search considers the listed valid actions, and slot 0 in any case. */
  predicate Candidate(l: Listing, valid: set<Handle>, i: nat) {
    i < |l.slots| && (i == 0 || (i < l.count && l.slots[i] in valid))
  }

  /** Of all candidates `m` has the fewest tasks, and those before it have more. */
  ghost predicate Least(l: Listing, valid: set<Handle>, tasks: map<nat, int>, m: nat)
    requires forall i :: 0 <= i < |l.slots| ==> l.slots[i].id in tasks
  {
    && Candidate(l, valid, m)
    && forall i: nat :: Candidate(l, valid, i) ==>
         tasks[l.slots[m].id] <= tasks[l.slots[i].id] && (i < m ==> tasks[l.slots[m].id] < tasks[l.slots[i].id])
  }

  lemma LeastUnique(l: Listing, valid: set<Handle>, tasks: map<nat, int>, m: nat, n: nat)
    requires forall i :: 0 <= i < |l.slots| ==> l.slots[i].id in tasks
    requires Least(l, valid, tasks, m) && Least(l, valid, tasks, n)
    ensures m == n
  {
  }

  // ----- histories of creations and deletions -----------------------------

  datatype Event = Create(h: Handle) | Delete(h: Handle)

  function Empty(max: nat): Listing {
    Listing(seq(max, _ => INVALID), 0)
  }

  /** The list after a history. The creation of an action ignores that the list is
      full; nothing is said about removals after the count has wrapped around. */
  ghost function After(max: nat, events: seq<Event>): (l: Listing)
    ensures |l.slots| == max
  {
    if events == [] then Empty(max) else
      var l := After(max, events[..|events| - 1]);
      match events[|events| - 1]
      case Create(h) => Added(l, h)
      case Delete(h) => if l.count <= max then Removed(l, h) else l
  }

  /** The actions that exist after a history, and those that ever existed. */
  ghost function Live(events: seq<Event>): set<Handle> {
    if events == [] then {} else
      match events[|events| - 1]
      case Create(h) => Live(events[..|events| - 1]) + {h}
      case Delete(h) => Live(events[..|events| - 1]) - {h}
  }

  ghost function Created(events: seq<Event>): set<Handle> {
    if events == [] then {} else
      match events[|events| - 1]
      case Create(h) => Created(events[..|events| - 1]) + {h}
      case Delete(_) => Created(events[..|events| - 1])
  }

  /** Handles are never issued twice, and only existing actions are deleted. */
  ghost predicate History(events: seq<Event>) {
    events == [] ||
    (History(events[..|events| - 1]) &&
     match events[|events| - 1]
     case Create(h) => h.id > 0 && h !in Created(events[..|events| - 1])
     case Delete(h) => h in Live(events[..|events| - 1]))
  }

  /** There were never more than `max` actions at a time. */
  ghost predicate Within(max: nat, events: seq<Event>) {
    |Live(events)| <= max && (events == [] || Within(max, events[..|events| - 1]))
  }

  /** The list holds each existing action exactly once. */
  ghost predicate Exact(l: Listing, live: set<Handle>) {
    l.count <= |l.slots| && Distinct(Listed(l)) && forall h :: h in Listed(l) <==> h in live
  }

  lemma ExactCount(l: Listing, live: set<Handle>)
    requires Exact(l, live)
    ensures l.count == |live|
  {
    DistinctCardinality(Listed(l), live);
  }

  lemma AddExact(l: Listing, live: set<Handle>, h: Handle)
    requires Exact(l, live) && h !in live && l.count < |l.slots|
    ensures Exact(Added(l, h), live + {h})
  {
    assert Listed(Added(l, h)) == Listed(l) + [h];
  }

  lemma RemoveExact(l: Listing, live: set<Handle>, h: Handle)
    requires Exact(l, live) && h in live
    ensures Exact(Removed(l, h), live - {h})
  {
    assert h in Listed(l);
    RemovedMembers(l, h);
  }

  lemma {:induction false} LiveCreated(events: seq<Event>)
    requires History(events)
    ensures Live(events) <= Created(events)
  {
    if events != [] { LiveCreated(events[..|events| - 1]); }
  }

  /** Fewer entries than actions, or a count that has wrapped around. */
  ghost predicate Short(l: Listing, live: set<Handle>) {
    l.count > |l.slots| || l.count < |live|
  }

  lemma {:induction false} ListState(max: nat, events: seq<Event>)
    requires History(events) && max + 1 < UINT_RANGE
    ensures if Within(max, events) then Exact(After(max, events), Live(events))
              else Short(After(max, events), Live(events))
  {
    if events != [] {
      var init := events[..|events| - 1];
      ListState(max, init);
      LiveCreated(init);
      ListStep(max, init, events[|events| - 1]);
      assert events == init + [events[|events| - 1]];
    }
  }

  lemma ListStep(max: nat, init: seq<Event>, event: Event)
    requires max + 1 < UINT_RANGE && Live(init) <= Created(init)
    requires if Within(max, init) then Exact(After(max, init), Live(init)) else Short(After(max, init), Live(init))
    requires event.Create? ==> event.h !in Created(init)
    requires event.Delete? ==> event.h in Live(init)
    ensures var events := init + [event];
            if Within(max, events) then Exact(After(max, events), Live(events))
              else Short(After(max, events), Live(events))
  {
    var events := init + [event];
    assert events[..|events| - 1] == init;
    var l, live := After(max, init), Live(init);
    if Within(max, init) {
      ExactCount(l, live);
      if event.Create? {
        if l.count < max { AddExact(l, live, event.h); }
      } else {
        RemoveExact(l, live, event.h);
      }
    }
  }

  /** The list is exact after a history if and only if there were never more actions
      than it can hold. */
  lemma ListExactIff(max: nat, events: seq<Event>)
    requires History(events) && max + 1 < UINT_RANGE
    ensures Exact(After(max, events), Live(events)) <==> Within(max, events)
  {
    ListState(max, events);
    if Exact(After(max, events), Live(events)) {
      ExactCount(After(max, events), Live(events));
    }
  }

  /** One action too many and its deletion take another action off the list; one more
      deletion wraps the count around. */
  lemma OverfullLosesActions(a: Handle, b: Handle)
    requires a != b && a.id > 0 && b.id > 0
    ensures var events := [Create(a), Create(b), Delete(b)];
            History(events) && Live(events) == {a} && After(1, events) == Listing([a], 0)
    ensures After(1, [Create(a), Create(b), Delete(b), Delete(a)]).count == UINT_RANGE - 1
  {
    var e1, e2, e3, e4 := [Create(a)], [Create(a), Create(b)], [Create(a), Create(b), Delete(b)],
      [Create(a), Create(b), Delete(b), Delete(a)];
    assert e1[..0] == [] && e2[..1] == e1 && e3[..2] == e2 && e4[..3] == e3;
    assert After(1, []) == Listing([INVALID], 0);
    assert After(1, e1) == Listing([a], 1) && Live(e1) == {a} && Created(e1) == {a} && History(e1);
    assert After(1, e2) == Listing([a], 1) && Live(e2) == {a, b} && History(e2);
    assert After(1, e3) == Listing([a], 0) && Live(e3) == {a};
  }

  /** Left over entries belong to actions that once existed. */
  lemma {:induction false} SlotsCreated(max: nat, events: seq<Event>)
    requires History(events)
    ensures forall i :: 0 <= i < max ==>
              After(max, events).slots[i] == INVALID || After(max, events).slots[i] in Created(events)
  {
    if events != [] { SlotsCreated(max, events[..|events| - 1]); }
  }

  /** Handles of actions pass the pool's check exactly while the actions exist. */
  ghost predicate Checked(valid: set<Handle>, events: seq<Event>) {
    INVALID !in valid && forall h :: h in Created(events) ==> (h in valid <==> h in Live(events))
  }

  /** The history of a job's actions agrees with the pool: its actions have got handles
      from the pool, and they exist until they are retired. */
  ghost predicate FromPool(s: Generations.State, events: seq<Event>) {
    && (forall h :: h in Created(events) ==> exists i :: i in s.issued && i.AsHandle() == h)
    && (forall i :: i in s.issued && i.AsHandle() in Created(events) ==>
        (i.AsHandle() in Live(events) <==> i !in s.retired))
  }

  /** Pools keep the promise: with fewer than 2^32 deallocations of every slot, the
      handles that pass the check of the action pool are right for any history that
      agrees with it. */
  lemma PoolChecks(capacity: nat, run: seq<Generations.State>, k: nat, valid: set<Handle>, events: seq<Event>)
    requires Generations.Run(capacity, run) && k < |run| && FromPool(run[k], events)
    requires forall h :: h in valid <==> Generations.IsValid(run[k], capacity, h)
    requires forall id :: id in run[k].bumps ==> run[k].bumps[id] < UINT_RANGE
    ensures Checked(valid, events)
  {
    var s := run[k];
    forall h | h in Created(events) ensures h in valid <==> h in Live(events) {
      var i :| i in s.issued && i.AsHandle() == h;
      Generations.ValidIff(capacity, run, k, i);
      Generations.ValidWhileLive(capacity, run, k, i);
    }
  }

  /** On an exact list the candidates are the existing actions, if there are any. */
  lemma AllListed(l: Listing, live: set<Handle>, valid: set<Handle>, created: set<Handle>)
    requires Exact(l, live) && live <= created && |l.slots| > 0 && INVALID !in valid
    requires forall h :: h in created ==> (h in valid <==> h in live)
    requires l.slots[0] == INVALID || l.slots[0] in created
    ensures forall i :: 0 <= i < l.count ==> l.slots[i] in live && l.slots[i] in valid && Candidate(l, valid, i)
    ensures forall h :: h in live ==> exists i: nat :: Candidate(l, valid, i) && l.slots[i] == h
    ensures l.count == 0 ==> live == {} && l.slots[0] !in valid
    ensures forall i: nat :: Candidate(l, valid, i) && l.count > 0 ==> l.slots[i] in live && l.slots[i] in valid
  {
    forall i: nat | i < l.count ensures l.slots[i] in live && l.slots[i] in valid && Candidate(l, valid, i) {
      assert l.slots[i] == Listed(l)[i] && Listed(l)[i] in Listed(l);
    }
    forall h | h in live ensures exists i: nat :: Candidate(l, valid, i) && l.slots[i] == h {
      assert h in Listed(l);
      var i: nat :| i < l.count && Listed(l)[i] == h;
      assert Candidate(l, valid, i) && l.slots[i] == h;
    }
    if l.count == 0 {
      assert forall h :: h !in live;
    }
  }

  lemma LeastServes(l: Listing, live: set<Handle>, valid: set<Handle>, tasks: map<nat, int>, m: nat)
    requires forall i :: 0 <= i < |l.slots| ==> l.slots[i].id in tasks
    requires Least(l, valid, tasks, m)
    requires forall h :: h in live ==> exists i: nat :: Candidate(l, valid, i) && l.slots[i] == h
    requires l.count == 0 ==> live == {} && l.slots[0] !in valid
    requires l.count > 0 ==> l.slots[m] in live && l.slots[m] in valid
    ensures l.slots[m] in valid <==> live != {}
    ensures forall h :: h in live ==> h.id in tasks && tasks[l.slots[m].id] <= tasks[h.id]
  {
    forall h | h in live ensures h.id in tasks && tasks[l.slots[m].id] <= tasks[h.id] {
      var i: nat :| Candidate(l, valid, i) && l.slots[i] == h;
    }
  }

  /** The start of a task on a job whose list has never been overfull: an action is found
      exactly if there is one, it exists, and it is one with the fewest tasks. */
  method ChooseForTask(job: Job, valid: set<Handle>, tasks: map<nat, int>, ghost events: seq<Event>)
    returns (choice: Option<Handle>)
    requires 0 < job.actions.Length && job.actions.Length + 1 < UINT_RANGE
    requires forall i :: 0 <= i < job.actions.Length ==> job.actions[i].id in tasks
    requires History(events) && Within(job.actions.Length, events) && job.View() == After(job.actions.Length, events)
    requires Checked(valid, events)
    ensures forall i :: 0 <= i < job.numActions ==> i < job.actions.Length && job.actions[i] in valid
    ensures choice.None? <==> Live(events) == {}
    ensures choice.Some? ==> choice.value in Live(events) && choice.value.id in tasks
    ensures choice.Some? ==> forall h :: h in Live(events) ==> h.id in tasks && tasks[choice.value.id] <= tasks[h.id]
  {
    ghost var max, live := job.actions.Length, Live(events);
    ghost var l := After(max, events);
    ListState(max, events);
    SlotsCreated(max, events);
    LiveCreated(events);
    ExactCount(l, live);
    AllListed(l, live, valid, Created(events));
    var defined;
    defined, choice := job.ChooseAction(valid, tasks);
    ghost var m: nat :| Least(l, valid, tasks, m) && choice == if l.slots[m] in valid then Some(l.slots[m]) else None;
    LeastServes(l, live, valid, tasks, m);
  }
}
