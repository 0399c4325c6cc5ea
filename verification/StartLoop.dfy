/** The loop that pushes the instances of a task, including pushes that fail, while no other
    thread touches the queues. In the task runtime a producer with several instances waits
    for room instead. */
module StartLoop {
  import opened Common

  type Queues = map<QueueId, seq<nat>>

  function Room(queue: seq<nat>, limit: nat): nat {
    if |queue| < limit then limit - |queue| else 0
  }

  function Least(a: nat, b: nat): nat {
    if a < b then a else b
  }

  function Copies(task: nat, n: nat): (r: seq<nat>)
    ensures |r| == n
  {
    seq(n, i => task)
  }

  /** How many of the instances go to queue `q`. */
  function Aimed(targets: seq<QueueId>, q: QueueId): nat {
    multiset(targets)[q]
  }

  /** Instance `k` finds room: fewer instances before it went to its queue than fit. */
  predicate Fits(queues: Queues, targets: seq<QueueId>, limit: nat, k: nat)
    requires k < |targets| && targets[k] in queues
  {
    Aimed(targets[..k], targets[k]) < Room(queues[targets[k]], limit)
  }

  ghost predicate AllExist(queues: Queues, targets: seq<QueueId>) {
    forall k :: 0 <= k < |targets| ==> targets[k] in queues
  }

  /** The first `n` instances find room. */
  ghost predicate AllFit(queues: Queues, targets: seq<QueueId>, limit: nat, n: nat)
    requires n <= |targets| && AllExist(queues, targets)
  {
    forall k :: 0 <= k < n ==> Fits(queues, targets, limit, k)
  }

  /** Those of the first `n` instances that find room. */
  ghost function Fitting(queues: Queues, targets: seq<QueueId>, limit: nat, n: nat): set<nat>
    requires n <= |targets| && AllExist(queues, targets)
  {
    set k: nat | k < n && Fits(queues, targets, limit, k)
  }

  /** Every queue has received as many entries as were aimed at it, or as it had room for. */
  ghost predicate Filled(before: Queues, after: Queues, task: nat, targets: seq<QueueId>, limit: nat) {
    && after.Keys == before.Keys
    && forall q :: q in before ==>
         after[q] == before[q] + Copies(task, Least(Aimed(targets, q), Room(before[q], limit)))
  }

  lemma AimedMore(targets: seq<QueueId>, k: nat, q: QueueId)
    requires k < |targets|
    ensures Aimed(targets[..k + 1], q) == Aimed(targets[..k], q) + (if targets[k] == q then 1 else 0)
  {
    assert targets[..k + 1] == targets[..k] + [targets[k]];
  }

  lemma CopiesMore(task: nat, n: nat)
    ensures Copies(task, n + 1) == Copies(task, n) + [task]
  {
  }

  lemma FittingMore(queues: Queues, targets: seq<QueueId>, limit: nat, k: nat)
    requires k < |targets| && AllExist(queues, targets)
    ensures |Fitting(queues, targets, limit, k + 1)| ==
            |Fitting(queues, targets, limit, k)| + (if Fits(queues, targets, limit, k) then 1 else 0)
    ensures AllFit(queues, targets, limit, k + 1) <==>
            AllFit(queues, targets, limit, k) && Fits(queues, targets, limit, k)
  {
    assert Fitting(queues, targets, limit, k + 1) ==
           Fitting(queues, targets, limit, k) + (if Fits(queues, targets, limit, k) then {k} else {});
  }

  lemma FilledMore(before: Queues, now: Queues, after: Queues, task: nat, targets: seq<QueueId>, limit: nat, k: nat)
    requires k < |targets| && AllExist(before, targets) && Filled(before, now, task, targets[..k], limit)
    requires var q := targets[k]; after == if |now[q]| < limit then now[q := now[q] + [task]] else now
    ensures Filled(before, after, task, targets[..k + 1], limit)
    ensures |now[targets[k]]| < limit <==> Fits(before, targets, limit, k)
  {
    var q := targets[k];
    assert q in before.Keys;
    forall p | p in before
      ensures after[p] == before[p] + Copies(task, Least(Aimed(targets[..k + 1], p), Room(before[p], limit)))
    {
      AimedMore(targets, k, p);
      CopiesMore(task, Least(Aimed(targets[..k], p), Room(before[p], limit)));
    }
  }

  class Node {
    const limit: nat
    var queues: Queues
    var numTasks: int       // of the task's action

    constructor (limit: nat, queues: Queues)
      ensures this.limit == limit && this.queues == queues && numTasks == 0
    {
      this.limit, this.queues, numTasks := limit, queues, 0;
    }

    /** Counts an instance and pushes it; the count is taken back if there is no room. */
    method Schedule(task: nat, q: QueueId) returns (pushed: bool)
      requires q in queues
      modifies this
      ensures pushed <==> |old(queues[q])| < limit
      ensures queues == if pushed then old(queues)[q := old(queues)[q] + [task]] else old(queues)
      ensures numTasks == old(numTasks) + (if pushed then 1 else 0)
    {
      numTasks := numTasks + 1;
      pushed := |queues[q]| < limit;
      if pushed {
        queues := queues[q := queues[q] + [task]];
      } else {
        numTasks := numTasks - 1;
      }
    }

    /** The loop goes on after a failed push; unless all succeed the start deletes the
        task. */
    method Start(task: nat, targets: seq<QueueId>) returns (scheduled: bool)
      requires AllExist(queues, targets)
      modifies this
      ensures Filled(old(queues), queues, task, targets, limit)
      ensures scheduled <==> AllFit(old(queues), targets, limit, |targets|)
      ensures numTasks == old(numTasks) + |Fitting(old(queues), targets, limit, |targets|)|
    {
      scheduled := true;
      ghost var before, counted := queues, numTasks;
      for kk := 0 to |targets|
        invariant Filled(before, queues, task, targets[..kk], limit)
        invariant scheduled <==> AllFit(before, targets, limit, kk)
        invariant numTasks == counted + |Fitting(before, targets, limit, kk)|
      {
        ghost var now := queues;
        assert targets[kk] in queues.Keys;
        var pushed := Schedule(task, targets[kk]);
        FilledMore(before, now, queues, task, targets, limit, kk);
        FittingMore(before, targets, limit, kk);
        scheduled := scheduled && pushed;
      }
      assert targets[..|targets|] == targets;
    }
  }

  // ----- what a failed start leaves behind ---------------------------------

  /** Some queue holds the task. */
  ghost predicate Left(queues: Queues, task: nat) {
    exists q :: q in queues && task in queues[q]
  }

  /** More instances are aimed at some queue than it has room for. */
  ghost predicate Overfull(queues: Queues, targets: seq<QueueId>, limit: nat) {
    exists q :: q in queues && Aimed(targets, q) > Room(queues[q], limit)
  }

  /** Some instance is aimed at a queue that has room. */
  ghost predicate SomeRoom(queues: Queues, targets: seq<QueueId>, limit: nat)
    requires AllExist(queues, targets)
  {
    exists k :: 0 <= k < |targets| && Room(queues[targets[k]], limit) > 0
  }

  /** The last instance aimed at a queue finds room exactly if all of them do. */
  lemma {:induction false} LastAimed(targets: seq<QueueId>, q: QueueId, n: nat)
    requires Aimed(targets, q) > n
    ensures exists k: nat :: k < |targets| && targets[k] == q && Aimed(targets[..k], q) == n
    decreases |targets|
  {
    var k := |targets| - 1;
    assert targets == targets[..k + 1];
    AimedMore(targets, k, q);
    if Aimed(targets[..k], q) > n {
      LastAimed(targets[..k], q, n);
      var j: nat :| j < k && targets[..k][j] == q && Aimed(targets[..k][..j], q) == n;
      assert targets[..k][..j] == targets[..j];
    }
  }

  lemma AimedPart(targets: seq<QueueId>, k: nat)
    requires k < |targets|
    ensures Aimed(targets[..k], targets[k]) < Aimed(targets, targets[k])
  {
    AimedMore(targets, k, targets[k]);
    assert targets == targets[..k + 1] + targets[k + 1..];
  }

  /** A start fails if and only if more instances are aimed at some queue than it has room
      for. */
  lemma FailsIff(queues: Queues, targets: seq<QueueId>, limit: nat)
    requires AllExist(queues, targets)
    ensures !AllFit(queues, targets, limit, |targets|) <==> Overfull(queues, targets, limit)
  {
    if q :| q in queues && Aimed(targets, q) > Room(queues[q], limit) {
      LastAimed(targets, q, Room(queues[q], limit));
      var k: nat :| k < |targets| && targets[k] == q && Aimed(targets[..k], q) == Room(queues[q], limit);
      assert !Fits(queues, targets, limit, k);
    } else {
      forall k: nat | k < |targets| ensures Fits(queues, targets, limit, k) {
        AimedPart(targets, k);
      }
    }
  }

  /** Entries of the task are in the queues after the loop if and only if some instance was
      aimed at a queue with room, whether the start fails or not. */
  lemma LeftIff(before: Queues, after: Queues, task: nat, targets: seq<QueueId>, limit: nat)
    requires AllExist(before, targets) && !Left(before, task) && Filled(before, after, task, targets, limit)
    ensures Left(after, task) <==> SomeRoom(before, targets, limit)
  {
    if k :| 0 <= k < |targets| && Room(before[targets[k]], limit) > 0 {
      var q := targets[k];
      var n := Least(Aimed(targets, q), Room(before[q], limit));
      assert q in after.Keys && after[q][|before[q]|] == Copies(task, n)[0] == task;
    }
  }

  /** So a failed start leaves entries of the deleted task exactly if the queues had room
      for some of the instances and not for all of them; never with one instance. */
  lemma DebrisIff(before: Queues, after: Queues, task: nat, targets: seq<QueueId>, limit: nat)
    requires AllExist(before, targets) && !Left(before, task) && Filled(before, after, task, targets, limit)
    ensures !AllFit(before, targets, limit, |targets|) && Left(after, task) <==>
            Overfull(before, targets, limit) && SomeRoom(before, targets, limit)
    ensures |targets| == 1 ==> AllFit(before, targets, limit, |targets|) || !Left(after, task)
  {
    FailsIff(before, targets, limit);
    LeftIff(before, after, task, targets, limit);
    if |targets| == 1 && !AllFit(before, targets, limit, |targets|) {
      assert targets[..0] == [] && !Fits(before, targets, limit, 0);
    }
  }

  /** Two instances and a queue with room for one of them. */
  lemma Debris(task: nat)
    ensures var targets := [Public(0, 0), Public(0, 0)]; var before := map[Public(0, 0) := []];
            && Overfull(before, targets, 1) && SomeRoom(before, targets, 1) && !Left(before, task)
            && Filled(before, map[Public(0, 0) := [task]], task, targets, 1)
  {
    var q := Public(0, 0);
    assert Aimed([q, q], q) == 2;
    assert Copies(task, 1) == [task];
  }
}
