/** Which task a worker takes next: the two orders in which the scheduler goes
    through its own and the other workers' queues. */
module NextTask {
  import opened Common

  // ----- the round of the other workers -----------------------------------

  /** How far worker `v` is from worker `w` in the round that starts after `w`. */
  function Distance(w: nat, v: nat, workers: nat): (d: nat)
    requires w < workers && v < workers && v != w
    ensures d < workers - 1
  {
    if w < v then v - w - 1 else v + workers - w - 1
  }

  /** The worker visited in turn `k`. */
  function Victim(w: nat, k: nat, workers: nat): nat
    requires w < workers
  {
    if w + 1 + k < workers then w + 1 + k else w + 1 + k - workers
  }

  /** The `workers - 1` turns visit every other worker exactly once. */
  lemma RoundVisitsAll(w: nat, workers: nat)
    requires w < workers
    ensures forall k: nat :: k < workers - 1 ==>
              && Victim(w, k, workers) < workers && Victim(w, k, workers) != w
              && Distance(w, Victim(w, k, workers), workers) == k
    ensures forall v: nat :: v < workers && v != w ==> Victim(w, Distance(w, v, workers), workers) == v
  {
  }

  lemma StepAround(x: nat, workers: nat)
    requires x < workers
    ensures (x + 1) % workers == if x + 1 == workers then 0 else x + 1
  {
    if x + 1 == workers {
      assert workers % workers == 0;
    }
  }

  // ----- the orders -------------------------------------------------------

  datatype Key = Key(first: nat, second: nat, third: nat)

  predicate Before(a: Key, b: Key) {
    || a.first < b.first
    || (a.first == b.first && a.second < b.second)
    || (a.first == b.first && a.second == b.second && a.third < b.third)
  }

  datatype Mode = Vhpf | Lf

  /** Own private queues come before own public ones, and those before stealing. */
  function Tier(w: nat, q: QueueId): nat {
    if q.Private? then 0 else if q.worker == w then 1 else 2
  }

  /** The rank of an eligible queue: by priority first, or by tier first. */
  function Rank(mode: Mode, w: nat, workers: nat, q: QueueId): Key
    requires w < workers && q.worker < workers
  {
    var far := if q.worker == w then 0 else Distance(w, q.worker, workers);
    match mode
    case Vhpf => Key(q.priority, Tier(w, q), far)
    case Lf => Key(Tier(w, q), q.priority, far)
  }

  /** Different queues have different ranks, so there is one best queue. */
  lemma RankInjective(mode: Mode, w: nat, workers: nat, p: QueueId, q: QueueId)
    requires w < workers && p.worker < workers && q.worker < workers && Eligible(w, p) && Eligible(w, q)
    requires Rank(mode, w, workers, p) == Rank(mode, w, workers, q)
    ensures p == q
  {
  }

  type Queues = map<QueueId, seq<nat>>

  /** A pop from `q` succeeds: the queue has a task and its lock is available. */
  predicate Offers(queues: Queues, contended: set<QueueId>, q: QueueId) {
    q in queues && q !in contended && queues[q] != []
  }

  ghost predicate NothingFor(queues: Queues, contended: set<QueueId>, w: nat) {
    forall q :: q in queues && Eligible(w, q) ==> !Offers(queues, contended, q)
  }

  /** `q` is the queue with the least rank among those that offer worker `w` a task. */
  ghost predicate Best(mode: Mode, w: nat, workers: nat, queues: Queues, contended: set<QueueId>, q: QueueId)
    requires w < workers && forall p :: p in queues ==> p.worker < workers
  {
    && Eligible(w, q) && Offers(queues, contended, q)
    && forall p :: p in queues && p != q && Eligible(w, p) && Offers(queues, contended, p) ==>
         Before(Rank(mode, w, workers, q), Rank(mode, w, workers, p))
  }

  lemma BestUnique(mode: Mode, w: nat, workers: nat, queues: Queues, contended: set<QueueId>, p: QueueId, q: QueueId)
    requires w < workers && forall p :: p in queues ==> p.worker < workers
    requires Best(mode, w, workers, queues, contended, p) && Best(mode, w, workers, queues, contended, q)
    ensures p == q
  {
    assert p == q || Before(Rank(mode, w, workers, p), Rank(mode, w, workers, q));
  }

  // ----- searches among other threads -------------------------------------

  /** What other threads do during a search: what they make of the queues before its probe
      number `n`, and whose locks cannot be taken then. */
  datatype Others = Others(change: (nat, Queues) -> Queues, contended: nat -> set<QueueId>) {
    /** They push and pop as they like, but queues do not come and go. */
    ghost predicate Valid() {
      forall n, queues :: change(n, queues).Keys == queues.Keys
    }

    /** They do nothing but hold some locks. */
    ghost predicate Still(held: set<QueueId>) {
      && (forall n, queues :: change(n, queues) == queues)
      && (forall n :: contended(n) == held)
    }
  }

  /** A queue was probed while the queues were these and those locks could not be taken. */
  datatype Probe = Probe(queue: QueueId, queues: Queues, contended: set<QueueId>) {
    predicate Missed() {
      !Offers(queues, contended, queue)
    }
  }

  /** The queues after some probes that missed. */
  ghost function Latest(before: Queues, log: seq<Probe>): Queues {
    if log == [] then before else log[|log| - 1].queues
  }

  /** The head of `q`, and only that, was taken out. */
  ghost predicate Took(before: Queues, after: Queues, q: QueueId, task: Option<nat>) {
    q in before && before[q] != [] && task == Some(before[q][0]) && after == before[q := before[q][1..]]
  }

  /** What probe number `n` does to the queues `now`: other threads act, then the pop takes
      the head of the queue or misses. */
  ghost predicate Tried(probe: Probe, others: Others, n: nat, now: Queues, after: Queues, task: Option<nat>) {
    && probe.queues == others.change(n, now) && probe.contended == others.contended(n)
    && (task.Some? <==> !probe.Missed())
    && if task.None? then after == probe.queues else Took(probe.queues, after, probe.queue, task)
  }

  /** Probe number `k` of a log starts from the queues the one before has left, and only
      the last one may yield the task; without probes nothing happens. */
  ghost predicate Played(log: seq<Probe>, others: Others, before: Queues, after: Queues, task: Option<nat>, k: nat)
    requires k <= |log|
  {
    if k == |log| then log == [] ==> task.None? && after == before
    else if k + 1 == |log| then Tried(log[k], others, k, Latest(before, log[..k]), after, task)
    else Tried(log[k], others, k, Latest(before, log[..k]), log[k].queues, None)
  }

  /** Between the probes only other threads change the queues, and no probe but a last one
      takes a task. */
  ghost predicate Trace(log: seq<Probe>, others: Others, before: Queues, after: Queues, task: Option<nat>) {
    forall k :: 0 <= k <= |log| ==> Played(log, others, before, after, task, k)
  }

  ghost predicate Probed(log: seq<Probe>, q: QueueId) {
    exists k :: 0 <= k < |log| && log[k].queue == q
  }

  /** Whose search it is, and in which order. */
  datatype Search = Search(mode: Mode, w: nat, workers: nat, priorities: nat) {
    predicate Valid() {
      w < workers
    }

    /** A queue the search may take from. */
    predicate Admits(q: QueueId) {
      QueueExists(q, workers, priorities) && Eligible(w, q)
    }

    function RankOf(q: QueueId): Key
      requires Valid() && Admits(q)
    {
      Rank(mode, w, workers, q)
    }

    /** The probed queues have ascending ranks, so none is probed twice. */
    ghost predicate Ascending(log: seq<Probe>)
      requires Valid()
    {
      && (forall k :: 0 <= k < |log| ==> Admits(log[k].queue))
      && (forall i, j :: 0 <= i < j < |log| ==> Before(RankOf(log[i].queue), RankOf(log[j].queue)))
    }

    /** All queues have been probed, or all that come before the last one. */
    ghost predicate Complete(log: seq<Probe>, task: Option<nat>)
      requires Valid() && Ascending(log)
    {
      match task
      case None => forall q :: Admits(q) ==> Probed(log, q)
      case Some(_) =>
        forall q :: Admits(q) && |log| > 0 && Before(RankOf(q), RankOf(log[|log| - 1].queue)) ==> Probed(log, q)
    }
  }

  function Successor(key: Key): Key {
    key.(third := key.third + 1)
  }

  /** No queue has a rank between these bounds. */
  ghost predicate Gap(search: Search, low: Key, high: Key)
    requires search.Valid()
  {
    forall q :: search.Admits(q) && Before(search.RankOf(q), high) ==> Before(search.RankOf(q), low)
  }

  /** The rank of entry `k` of a log, or the bound behind its end. */
  ghost function RankAt(search: Search, log: seq<Probe>, bound: Key, k: nat): Key
    requires search.Valid() && k <= |log| && (k < |log| ==> search.Admits(log[k].queue))
  {
    if k < |log| then search.RankOf(log[k].queue) else bound
  }

  /** No queue has a rank between that of entry `k` and that of the one before. */
  ghost predicate InTurn(search: Search, log: seq<Probe>, bound: Key, k: nat)
    requires search.Valid() && k <= |log|
  {
    && (k < |log| ==> search.Admits(log[k].queue))
    && if k == 0 then Gap(search, Key(0, 0, 0), RankAt(search, log, bound, 0)) else
         && search.Admits(log[k - 1].queue) && Before(search.RankOf(log[k - 1].queue), RankAt(search, log, bound, k))
         && Gap(search, Successor(search.RankOf(log[k - 1].queue)), RankAt(search, log, bound, k))
  }

  /** One queue after the other was probed and none passed over: those with a rank below
      `bound` have had their turn. */
  ghost predicate Reaches(search: Search, log: seq<Probe>, bound: Key)
    requires search.Valid()
  {
    forall k :: 0 <= k <= |log| ==> InTurn(search, log, bound, k)
  }

  lemma ReachesOn(search: Search, log: seq<Probe>, probe: Probe, next: Key)
    requires search.Valid() && search.Admits(probe.queue) && Reaches(search, log, search.RankOf(probe.queue))
    requires Before(search.RankOf(probe.queue), next) && Gap(search, Successor(search.RankOf(probe.queue)), next)
    ensures Reaches(search, log + [probe], next)
  {
    forall k | 0 <= k <= |log| + 1 ensures InTurn(search, log + [probe], next, k) {
      if k <= |log| { assert InTurn(search, log, search.RankOf(probe.queue), k); }
    }
  }

  lemma ReachesInit(search: Search, log: seq<Probe>, bound: Key)
    requires search.Valid() && Reaches(search, log, bound) && log != []
    ensures var last := log[|log| - 1].queue;
            && search.Admits(last) && Reaches(search, log[..|log| - 1], search.RankOf(last))
            && Before(search.RankOf(last), bound) && Gap(search, Successor(search.RankOf(last)), bound)
  {
    var n := |log| - 1;
    assert InTurn(search, log, bound, n) && InTurn(search, log, bound, n + 1);
    forall k | 0 <= k <= n ensures InTurn(search, log[..n], search.RankOf(log[n].queue), k) {
      assert InTurn(search, log, bound, k);
    }
  }

  lemma ProbedInit(log: seq<Probe>, q: QueueId)
    requires log != [] && (Probed(log[..|log| - 1], q) || log[|log| - 1].queue == q)
    ensures Probed(log, q)
  {
    if Probed(log[..|log| - 1], q) {
      var k :| 0 <= k < |log| - 1 && log[..|log| - 1][k].queue == q;
      assert log[k].queue == q;
    }
  }

  /** Nothing below the bound is left out. */
  lemma {:induction false} ReachesAll(search: Search, log: seq<Probe>, bound: Key, q: QueueId)
    requires search.Valid() && Reaches(search, log, bound) && search.Admits(q) && Before(search.RankOf(q), bound)
    ensures Probed(log, q)
  {
    assert InTurn(search, log, bound, 0);
    if log != [] {
      var n := |log| - 1;
      ReachesInit(search, log, bound);
      if q != log[n].queue {
        if search.RankOf(q) == search.RankOf(log[n].queue) {
          RankInjective(search.mode, search.w, search.workers, q, log[n].queue);
        }
        ReachesAll(search, log[..n], search.RankOf(log[n].queue), q);
      }
      ProbedInit(log, q);
    }
  }

  /** Nothing from the bound upwards is probed, and the ranks ascend. */
  lemma {:induction false} ReachesOnly(search: Search, log: seq<Probe>, bound: Key)
    requires search.Valid() && Reaches(search, log, bound)
    ensures search.Ascending(log) && forall k :: 0 <= k < |log| ==> Before(search.RankOf(log[k].queue), bound)
  {
    if log != [] {
      var n := |log| - 1;
      ReachesInit(search, log, bound);
      ReachesOnly(search, log[..n], search.RankOf(log[n].queue));
      assert forall k :: 0 <= k < n ==> log[k] == log[..n][k];
    }
  }

  /** A search is under way, with the queues of rank below `bound` behind it, or it has
      found a task. */
  ghost predicate Going(search: Search, log: seq<Probe>, others: Others, before: Queues, now: Queues, task: Option<nat>,
                        bound: Key)
    requires search.Valid()
  {
    Trace(log, others, before, now, task) && Reaches(search, log, bound)
  }

  lemma TraceOn(log: seq<Probe>, others: Others, before: Queues, now: Queues, probe: Probe, after: Queues,
                task: Option<nat>)
    requires Trace(log, others, before, now, None) && Tried(probe, others, |log|, now, after, task)
    ensures Trace(log + [probe], others, before, after, task)
  {
    var longer := log + [probe];
    assert Played(log, others, before, now, None, if log == [] then 0 else |log| - 1);
    assert longer[..|log|] == log;
    forall k | 0 <= k <= |longer| ensures Played(longer, others, before, after, task, k) {
      if k < |log| {
        assert Played(log, others, before, now, None, k);
        assert longer[..k] == log[..k];
      }
    }
  }

  lemma GoingOn(search: Search, log: seq<Probe>, others: Others, before: Queues, now: Queues, probe: Probe,
                after: Queues, task: Option<nat>, next: Key)
    requires search.Valid() && search.Admits(probe.queue)
    requires Going(search, log, others, before, now, None, search.RankOf(probe.queue))
    requires Tried(probe, others, |log|, now, after, task)
    requires Before(search.RankOf(probe.queue), next) && Gap(search, Successor(search.RankOf(probe.queue)), next)
    ensures Going(search, log + [probe], others, before, after, task, next)
  {
    TraceOn(log, others, before, now, probe, after, task);
    ReachesOn(search, log, probe, next);
  }

  /** Where no queue is passed over the bound can be raised. */
  lemma GoingUp(search: Search, log: seq<Probe>, low: Key, high: Key)
    requires search.Valid() && Reaches(search, log, low) && Gap(search, low, high) && (low == high || Before(low, high))
    ensures Reaches(search, log, high)
  {
    forall k | 0 <= k <= |log| ensures InTurn(search, log, high, k) {
      assert InTurn(search, log, low, k);
    }
  }

  /** All queues have a rank below `bound`. */
  ghost predicate AllBelow(search: Search, bound: Key)
    requires search.Valid()
  {
    forall q :: search.Admits(q) ==> Before(search.RankOf(q), bound)
  }

  /** At the end all queues have been probed, or all that come before the last one. */
  lemma GoneThrough(search: Search, log: seq<Probe>, task: Option<nat>, bound: Key)
    requires search.Valid() && Reaches(search, log, bound) && (task.None? ==> AllBelow(search, bound))
    ensures search.Ascending(log) && search.Complete(log, task)
  {
    ReachesOnly(search, log, bound);
    forall q | search.Admits(q) && Before(search.RankOf(q), bound) ensures Probed(log, q) {
      ReachesAll(search, log, bound, q);
    }
  }

  /** The rank of the queue of priority `p` that turn `k` of a round steals from. */
  function StealKey(mode: Mode, p: nat, k: nat): Key {
    match mode case Vhpf => Key(p, 2, k) case Lf => Key(2, p, k)
  }

  /** The worker of turn `k` of a round, which ends where it began. */
  function Turn(w: nat, k: nat, workers: nat): nat
    requires w < workers
  {
    if k == workers - 1 then w else Victim(w, k, workers)
  }

  lemma TurnNext(w: nat, k: nat, workers: nat, index: nat)
    requires w < workers && k < workers - 1 && index == Turn(w, k, workers)
    ensures (index + 1) % workers == Turn(w, k + 1, workers)
  {
    StepAround(index, workers);
  }

  lemma VictimRank(search: Search, p: nat, k: nat)
    requires search.Valid() && p < search.priorities && k < search.workers - 1
    ensures var q := Public(Victim(search.w, k, search.workers), p);
            search.Admits(q) && search.RankOf(q) == StealKey(search.mode, p, k)
    ensures Gap(search, StealKey(search.mode, p, k + 1), StealKey(search.mode, p, k + 1))
  {
    RoundVisitsAll(search.w, search.workers);
  }

  /** The rank of the own queue of priority `p`, private or public. */
  function OwnKey(mode: Mode, p: nat, tier: nat): Key {
    match mode case Vhpf => Key(p, tier, 0) case Lf => Key(tier, p, 0)
  }

  lemma OwnRank(search: Search, q: QueueId)
    requires search.Valid() && q.worker == search.w && q.priority < search.priorities
    ensures search.Admits(q) && search.RankOf(q) == OwnKey(search.mode, q.priority, if q.Private? then 0 else 1)
  {
  }

  lemma GapsVhpf(search: Search, p: nat)
    requires search.Valid() && search.mode.Vhpf?
    ensures Gap(search, Key(p, 0, 1), Key(p, 1, 0)) && Gap(search, Key(p, 1, 1), Key(p, 2, 0))
    ensures Gap(search, Key(p, 2, search.workers - 1), Key(p + 1, 0, 0))
  {
  }

  lemma GapsLf(search: Search, p: nat)
    requires search.Valid() && search.mode.Lf?
    ensures Gap(search, Key(0, p, 1), Key(0, p + 1, 0)) && Gap(search, Key(1, p, 1), Key(1, p + 1, 0))
    ensures Gap(search, Key(2, p, search.workers - 1), Key(2, p + 1, 0))
  {
  }

  lemma EndsLf(search: Search)
    requires search.Valid() && search.mode.Lf?
    ensures Gap(search, Key(0, search.priorities, 0), Key(1, 0, 0))
    ensures Gap(search, Key(1, search.priorities, 0), Key(2, 0, 0))
    ensures AllBelow(search, Key(2, search.priorities, 0))
  {
  }

  lemma EndVhpf(search: Search)
    requires search.Valid() && search.mode.Vhpf?
    ensures AllBelow(search, Key(search.priorities, 0, 0))
  {
  }

  // ----- the orders in words ----------------------------------------------

  predicate Own(w: nat, q: QueueId) {
    q.Public? && q.worker == w
  }

  predicate Foreign(w: nat, q: QueueId) {
    q.Public? && q.worker != w
  }

  /** Going round from worker `w`, the worker of `p` comes before that of `q`. */
  predicate Nearer(w: nat, workers: nat, p: QueueId, q: QueueId) {
    (if p.worker > w then p.worker else p.worker + workers) < if q.worker > w then q.worker else q.worker + workers
  }

  /** The higher priority, which is the lower number, comes first. Within one, the own
      private queue does, then the own public one, then those of the other workers, the
      nearer one first. */
  predicate PriorityFirst(w: nat, workers: nat, p: QueueId, q: QueueId) {
    || p.priority < q.priority
    || (p.priority == q.priority &&
        if p.Private? then q.Public? else Foreign(w, q) && (Own(w, p) || Nearer(w, workers, p, q)))
  }

  /** The own private queues of all priorities come first, then the own public ones, then
      those of the other workers, priority by priority and the nearer one first. */
  predicate OwnFirst(w: nat, workers: nat, p: QueueId, q: QueueId) {
    if p.Private? then q.Public? || p.priority < q.priority
    else if Own(w, p) then Foreign(w, q) || (Own(w, q) && p.priority < q.priority)
    else Foreign(w, q) && (p.priority < q.priority || (p.priority == q.priority && Nearer(w, workers, p, q)))
  }

  lemma OrderVhpf(search: Search, log: seq<Probe>)
    requires search.Valid() && search.Ascending(log) && search.mode.Vhpf?
    ensures forall i, j :: 0 <= i < j < |log| ==> PriorityFirst(search.w, search.workers, log[i].queue, log[j].queue)
  {
  }

  lemma OrderLf(search: Search, log: seq<Probe>)
    requires search.Valid() && search.Ascending(log) && search.mode.Lf?
    ensures forall i, j :: 0 <= i < j < |log| ==> OwnFirst(search.w, search.workers, log[i].queue, log[j].queue)
  {
  }

  // ----- the search -------------------------------------------------------

  class Scheduler {
    const workers: nat
    const priorities: nat
    var queues: Queues

    ghost predicate Valid()
      reads this
    {
      0 < workers && forall q :: q in queues <==> QueueExists(q, workers, priorities)
    }

    constructor (workers: nat, priorities: nat)
      requires 0 < workers
      ensures Valid() && this.workers == workers && this.priorities == priorities
      ensures forall q :: q in queues ==> queues[q] == []
    {
      this.workers := workers;
      this.priorities := priorities;
      var all: Queues := map[];
      for w := 0 to workers
        invariant forall q :: q in all <==> QueueExists(q, w, priorities)
        invariant forall q :: q in all ==> all[q] == []
      {
        for p := 0 to priorities
          invariant forall q :: q in all <==> QueueExists(q, w, priorities) || (q.worker == w && q.priority < p)
          invariant forall q :: q in all ==> all[q] == []
        {
          all := all[Public(w, p) := []][Private(w, p) := []];
        }
      }
      queues := all;
    }

    /** Probe number `n`: other threads act, then the pop succeeds or not. */
    method TryPop(q: QueueId, others: Others, n: nat) returns (task: Option<nat>, ghost probe: Probe)
      requires Valid() && others.Valid() && QueueExists(q, workers, priorities)
      modifies this
      ensures Valid() && probe.queue == q && Tried(probe, others, n, old(queues), queues, task)
    {
      ghost var names := queues.Keys;
      task := None;
      queues := others.change(n, queues);
      assert queues.Keys == names;
      probe := Probe(q, queues, others.contended(n));
      if q !in others.contended(n) && queues[q] != [] {
        task := Some(queues[q][0]);
        queues := queues[q := queues[q][1..]];
      }
    }

    /** A probe of the next queue in the order. */
    method ProbeNext(q: QueueId, others: Others, n: nat, ghost search: Search, ghost before: Queues,
                     ghost log: seq<Probe>, ghost next: Key)
      returns (task: Option<nat>, ghost longer: seq<Probe>)
      requires Valid() && others.Valid() && n == |log| && search.Valid() && search.Admits(q)
      requires search.workers == workers && search.priorities == priorities
      requires Going(search, log, others, before, queues, None, search.RankOf(q))
      requires Before(search.RankOf(q), next) && Gap(search, Successor(search.RankOf(q)), next)
      modifies this
      ensures Valid() && |longer| == n + 1 && Going(search, longer, others, before, queues, task, next)
    {
      ghost var now, probe := queues, Probe(q, queues, {});
      task, probe := TryPop(q, others, n);
      GoingOn(search, log, others, before, now, probe, queues, task, next);
      longer := log + [probe];
    }

    /** One round through the public queues of the other workers at priority `p`. */
    method Steal(w: nat, p: nat, others: Others, from: nat, ghost search: Search, ghost before: Queues,
                 ghost start: seq<Probe>)
      returns (task: Option<nat>, n: nat, ghost log: seq<Probe>, ghost bound: Key)
      requires Valid() && others.Valid() && w < workers && p < priorities && from == |start|
      requires search == Search(search.mode, w, workers, priorities)
      requires Going(search, start, others, before, queues, None, StealKey(search.mode, p, 0))
      modifies this
      ensures Valid() && n == |log| && Going(search, log, others, before, queues, task, bound)
      ensures task.None? ==> bound == StealKey(search.mode, p, workers - 1)
    {
      task, n, log, bound := None, from, start, StealKey(search.mode, p, 0);
      StepAround(w, workers);
      var index := (w + 1) % workers;
      var kk := 0;
      while kk < workers - 1 && task.None?
        invariant Valid() && kk <= workers - 1 && n == |log| && index == Turn(w, kk, workers)
        invariant Going(search, log, others, before, queues, task, bound) && bound == StealKey(search.mode, p, kk)
      {
        VictimRank(search, p, kk);
        bound := StealKey(search.mode, p, kk + 1);
        task, log := ProbeNext(Public(index, p), others, n, search, before, log, bound);
        TurnNext(w, kk, workers, index);
        index := (index + 1) % workers;
        kk, n := kk + 1, n + 1;
      }
    }

    /** Priority by priority: own private queue, own public queue, then stealing. */
    method NextVhpf(w: nat, others: Others) returns (task: Option<nat>, ghost log: seq<Probe>)
      requires Valid() && others.Valid() && w < workers
      modifies this
      ensures Valid() && Trace(log, others, old(queues), queues, task)
      ensures var search := Search(Vhpf, w, workers, priorities); search.Ascending(log) && search.Complete(log, task)
      ensures forall i, j :: 0 <= i < j < |log| ==> PriorityFirst(w, workers, log[i].queue, log[j].queue)
    {
      task, log := None, [];
      ghost var search, before, bound := Search(Vhpf, w, workers, priorities), queues, Key(0, 0, 0);
      var ii, n := 0, 0;
      while ii < priorities && task.None?
        invariant Valid() && ii <= priorities && n == |log|
        invariant Going(search, log, others, before, queues, task, bound) && (task.None? ==> bound == Key(ii, 0, 0))
      {
        GapsVhpf(search, ii);
        OwnRank(search, Private(w, ii));
        bound := Key(ii, 1, 0);
        task, log := ProbeNext(Private(w, ii), others, n, search, before, log, bound);
        n := n + 1;
        if task.None? {
          OwnRank(search, Public(w, ii));
          bound := Key(ii, 2, 0);
          task, log := ProbeNext(Public(w, ii), others, n, search, before, log, bound);
          n := n + 1;
          if task.None? {
            task, n, log, bound := Steal(w, ii, others, n, search, before, log);
            if task.None? {
              GoingUp(search, log, bound, Key(ii + 1, 0, 0));
              bound := Key(ii + 1, 0, 0);
            }
          }
        }
        ii := ii + 1;
      }
      EndVhpf(search);
      GoneThrough(search, log, task, bound);
      OrderVhpf(search, log);
    }

    /** Own private queues of all priorities, own public queues of all priorities,
        then stealing, priority by priority. */
    method NextLf(w: nat, others: Others) returns (task: Option<nat>, ghost log: seq<Probe>)
      requires Valid() && others.Valid() && w < workers
      modifies this
      ensures Valid() && Trace(log, others, old(queues), queues, task)
      ensures var search := Search(Lf, w, workers, priorities); search.Ascending(log) && search.Complete(log, task)
      ensures forall i, j :: 0 <= i < j < |log| ==> OwnFirst(w, workers, log[i].queue, log[j].queue)
    {
      task, log := None, [];
      ghost var search, before, bound := Search(Lf, w, workers, priorities), queues, Key(0, 0, 0);
      var prio, n := 0, 0;
      while task.None? && prio < priorities
        invariant Valid() && prio <= priorities && n == |log|
        invariant Going(search, log, others, before, queues, task, bound) && bound == Key(0, prio, 0)
      {
        GapsLf(search, prio);
        OwnRank(search, Private(w, prio));
        bound := Key(0, prio + 1, 0);
        task, log := ProbeNext(Private(w, prio), others, n, search, before, log, bound);
        prio, n := prio + 1, n + 1;
      }
      EndsLf(search);
      if task.None? {
        GoingUp(search, log, bound, Key(1, 0, 0));
        bound := Key(1, 0, 0);
      }
      prio := 0;
      while task.None? && prio < priorities
        invariant Valid() && prio <= priorities && n == |log|
        invariant Going(search, log, others, before, queues, task, bound) && (task.None? ==> bound == Key(1, prio, 0))
      {
        GapsLf(search, prio);
        OwnRank(search, Public(w, prio));
        bound := Key(1, prio + 1, 0);
        task, log := ProbeNext(Public(w, prio), others, n, search, before, log, bound);
        prio, n := prio + 1, n + 1;
      }
      if task.None? {
        GoingUp(search, log, bound, Key(2, 0, 0));
        bound := Key(2, 0, 0);
      }
      prio := 0;
      while task.None? && prio < priorities
        invariant Valid() && prio <= priorities && n == |log|
        invariant Going(search, log, others, before, queues, task, bound) && (task.None? ==> bound == Key(2, prio, 0))
      {
        GapsLf(search, prio);
        task, n, log, bound := Steal(w, prio, others, n, search, before, log);
        if task.None? {
          GoingUp(search, log, bound, Key(2, prio + 1, 0));
          bound := Key(2, prio + 1, 0);
        }
        prio := prio + 1;
      }
      GoneThrough(search, log, task, bound);
      OrderLf(search, log);
    }
  }

  // ----- what the order means ---------------------------------------------

  /** In a search that yields a task every queue with a better rank was empty, or its lock
      could not be taken, at a moment during the search; in one that yields none, every
      queue was. */
  lemma BetterMissed(search: Search, log: seq<Probe>, others: Others, before: Queues, after: Queues, task: Option<nat>,
                     q: QueueId)
    requires Trace(log, others, before, after, task)
    requires search.Valid() && search.Ascending(log) && search.Complete(log, task)
    requires search.Admits(q)
    requires task.Some? ==> log != [] && Before(search.RankOf(q), search.RankOf(log[|log| - 1].queue))
    ensures exists k :: 0 <= k < |log| && log[k].queue == q && log[k].Missed()
  {
    var k :| 0 <= k < |log| && log[k].queue == q;
    assert Played(log, others, before, after, task, k);
  }

  /** If no other thread interferes, the queues are the same at all probes. */
  lemma {:induction false} StillQueues(log: seq<Probe>, others: Others, before: Queues, after: Queues,
                                       task: Option<nat>, held: set<QueueId>, k: nat)
    requires Trace(log, others, before, after, task) && others.Still(held) && k < |log|
    ensures log[k].queues == before && log[k].contended == held
  {
    assert Played(log, others, before, after, task, k);
    if k > 0 { StillQueues(log, others, before, after, task, held, k - 1); }
  }

  /** A search that nobody interferes with takes the head of the best queue, and none
      exactly if no queue offers a task. */
  lemma BestTaken(search: Search, log: seq<Probe>, others: Others, before: Queues, after: Queues, task: Option<nat>,
                  held: set<QueueId>)
    requires Trace(log, others, before, after, task)
    requires search.Valid() && search.Ascending(log) && search.Complete(log, task)
    requires (forall q :: q in before <==> QueueExists(q, search.workers, search.priorities)) && others.Still(held)
    ensures forall q :: q in before ==> q.worker < search.workers
    ensures task.None? <==> NothingFor(before, held, search.w)
    ensures task.None? ==> after == before
    ensures task.Some? ==>
              exists q :: Best(search.mode, search.w, search.workers, before, held, q) && Took(before, after, q, task)
  {
    assert Played(log, others, before, after, task, |log|);
    if log != [] { assert Played(log, others, before, after, task, |log| - 1); }
    forall k | 0 <= k < |log| ensures log[k].queues == before && log[k].contended == held {
      StillQueues(log, others, before, after, task, held, k);
    }
    forall q | q in before && Eligible(search.w, q) && Offers(before, held, q)
      ensures task.Some? && log != [] && !Before(search.RankOf(q), search.RankOf(log[|log| - 1].queue))
    {
      if task.None? || Before(search.RankOf(q), search.RankOf(log[|log| - 1].queue)) {
        BetterMissed(search, log, others, before, after, task, q);
      }
    }
    if task.Some? {
      var last := log[|log| - 1].queue;
      forall p | p in before && p != last && Eligible(search.w, p) && Offers(before, held, p)
        ensures Before(search.RankOf(last), search.RankOf(p))
      {
        if search.RankOf(p) == search.RankOf(last) { RankInjective(search.mode, search.w, search.workers, p, last); }
      }
      assert Best(search.mode, search.w, search.workers, before, held, last);
    }
  }
}
