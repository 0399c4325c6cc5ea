/** Core affinities and the choice of the worker an affine task is pushed to.
    A 64-bit mask is modelled as the set of its bits. */
module Affinity {
  import opened Common

  type Mask = set<nat>

  /** The mask with the bits of all `cores` cores, as left by an initialisation
      with `true`. */
  function AllCores(cores: nat): (m: Mask)
    ensures forall b: nat :: b in m <==> b < cores
  {
    Below(cores)
  }

  /** The bounded bit test: a core number out of range is reported as unset. */
  predicate Get(mask: Mask, core: nat, cores: nat) {
    core < cores && core in mask
  }

  ghost predicate HasWorker(mask: Mask, workers: nat) {
    exists b :: Get(mask, b, workers)
  }

  /** The mask a task is scheduled with: the ordered queue's mask overrides the
      intersection of action and task masks, and an empty mask means all. */
  function Effective(action: Mask, task: Mask, ordered: Option<Mask>, workers: nat): (m: Mask)
    ensures m != {} || workers == 0
    ensures ordered.None? && action !! task ==> m == AllCores(workers)
    ensures ordered.None? && action * task != {} ==> forall b: nat :: b in m <==> b in action && b in task
    ensures ordered.Some? && ordered.value != {} ==> m == ordered.value
  {
    var m := match ordered case Some(o) => o case None => action * task;
    if m == {} then assert workers > 0 ==> 0 in AllCores(workers); AllCores(workers) else m
  }

  /** The mask of an ordered queue: one bit, derived from the queue's pool slot. */
  function OrderedMask(slot: nat, workers: nat): (m: Mask)
    requires workers > 0
    ensures HasWorker(m, workers)
    ensures forall v, w :: v in m && w in m ==> v == w
  {
    var m: Mask := {slot % workers};
    assert Get(m, slot % workers, workers);
    m
  }

  // ----- the target search ------------------------------------------------

  /** One turn of the search loop, on a 32-bit unsigned index. */
  function Advance(ii: nat, workers: nat): (r: nat)
    requires workers > 0
    ensures r < workers
  {
    (ii + 1) % UINT_RANGE % workers
  }

  /** The index probed after `n` turns, starting from any counter value. */
  function Probe(start: nat, n: nat, workers: nat): (r: nat)
    requires workers > 0
  {
    if n == 0 then start else Advance(Probe(start, n - 1, workers), workers)
  }

  /** `w` is what the search loop yields: a probed index whose bit is set, while
      no index probed earlier has its bit set. */
  ghost predicate Hit(mask: Mask, start: nat, n: nat, workers: nat, w: nat)
    requires workers > 0
  {
    && w == Probe(start, n, workers)
    && Get(mask, w, workers)
    && forall j :: 0 <= j < n ==> !Get(mask, Probe(start, j, workers), workers)
  }

  ghost predicate IsTarget(mask: Mask, start: nat, workers: nat, w: nat)
    requires workers > 0
  {
    exists n: nat :: Hit(mask, start, n, workers, w)
  }

  /** Below the worker count the index runs through the workers cyclically. */
  lemma AdvanceCyclic(ii: nat, workers: nat)
    requires ii < workers < UINT_RANGE
    ensures Advance(ii, workers) == if ii + 1 == workers then 0 else ii + 1
  {
    if ii + 1 == workers {
      assert workers % workers == 0;
    }
  }

  /** How many turns a cyclic index needs from `ii` to `b`. */
  function Ahead(ii: nat, b: nat, workers: nat): (d: nat)
    requires ii < workers && b < workers
    ensures d < workers
  {
    if ii <= b then b - ii else b + workers - ii
  }

  lemma {:induction false} ProbeReaches(start: nat, n: nat, b: nat, workers: nat)
    requires b < workers < UINT_RANGE
    requires Probe(start, n, workers) < workers
    ensures exists m: nat :: m >= n && Probe(start, m, workers) == b
    decreases Ahead(Probe(start, n, workers), b, workers)
  {
    var p := Probe(start, n, workers);
    if p != b {
      AdvanceCyclic(p, workers);
      assert Probe(start, n + 1, workers) == Advance(p, workers);
      ProbeReaches(start, n + 1, b, workers);
    }
  }

  /** The search comes to an end exactly when the mask has a bit below the worker
      count, whatever the 32-bit counter holds. */
  lemma SearchEndsIff(mask: Mask, start: nat, workers: nat)
    requires 0 < workers < UINT_RANGE
    ensures (exists n: nat :: Get(mask, Probe(start, n, workers), workers)) <==> HasWorker(mask, workers)
  {
    if b :| Get(mask, b, workers) {
      assert Probe(start, 1, workers) == Advance(Probe(start, 0, workers), workers);
      ProbeReaches(start, 1, b, workers);
      var m: nat :| m >= 1 && Probe(start, m, workers) == b;
      assert Get(mask, Probe(start, m, workers), workers);
    }
  }

  /** With two workers, a mask that only has the bit of a third one is never hit. */
  lemma EndlessSearch(start: nat)
    ensures forall n: nat :: !Get({2}, Probe(start, n, 2), 2)
  {
    SearchEndsIff({2}, start, 2);
  }

  /** The search loop of the scheduler. */
  method FindTarget(mask: Mask, start: nat, workers: nat) returns (w: nat)
    requires 0 < workers < UINT_RANGE
    requires HasWorker(mask, workers)
    ensures w < workers && w in mask
    ensures IsTarget(mask, start, workers, w)
    ensures start < UINT_RANGE ==>
              if start < workers && start in mask then w == start
              else Nearest(mask, if start + 1 == UINT_RANGE then 0 else start + 1, workers, w)
  {
    var ii := start;
    ghost var b :| Get(mask, b, workers);
    ghost var n: nat := 0;
    while !(ii < workers && ii in mask)
      invariant ii == Probe(start, n, workers)
      invariant forall j :: 0 <= j < n ==> !Get(mask, Probe(start, j, workers), workers)
      invariant n > 0 ==> ii < workers
      decreases if n == 0 then workers else Ahead(ii, b, workers)
    {
      if ii < workers { AdvanceCyclic(ii, workers); }
      ii := (ii + 1) % UINT_RANGE % workers;
      n := n + 1;
    }
    w := ii;
    assert Hit(mask, start, n, workers, w);
    if start < UINT_RANGE { TargetClosed(mask, start, workers, w); }
  }

  // ----- the outcome in closed form ---------------------------------------

  lemma {:induction false} Multiple(d: nat, workers: nat)
    requires d > 0
    ensures d * workers >= workers
  {
    if d > 1 {
      Multiple(d - 1, workers);
      assert d * workers == (d - 1) * workers + workers;
    }
  }

  lemma Remainder(x: nat, q: nat, r: nat, workers: nat)
    requires r < workers && x == q * workers + r
    ensures x % workers == r
  {
    var p, rest := x / workers, x % workers;
    Division(x, workers);
    if p < q {
      Multiple(q - p, workers);
      Difference(q, p, workers);
    } else if p > q {
      Multiple(p - q, workers);
      Difference(p, q, workers);
    }
  }

  lemma Division(x: nat, workers: nat)
    requires workers > 0
    ensures x == x / workers * workers + x % workers && x % workers < workers
  {
  }

  lemma Difference(a: nat, b: nat, c: nat)
    ensures (a - b) * c == a * c - b * c
  {
  }

  lemma StepMod(x: nat, workers: nat)
    requires workers > 0
    ensures (x + 1) % workers == if x % workers + 1 == workers then 0 else x % workers + 1
  {
    var q, r := x / workers, x % workers;
    assert x == q * workers + r;
    if r + 1 == workers {
      assert x + 1 == (q + 1) * workers + 0;
      Remainder(x + 1, q + 1, 0, workers);
    } else {
      Remainder(x + 1, q, r + 1, workers);
    }
  }

  /** Where the search goes after the counter's own value: one further, in 32 bits. */
  function From(start: nat): nat {
    if start == UINT_RANGE - 1 then 0 else start + 1
  }

  /** The worker `d` places after the one that `from` stands for. */
  function Around(from: nat, d: nat, workers: nat): nat
    requires workers > 0
  {
    (from + d) % workers
  }

  lemma {:induction false} ProbeClosed(start: nat, d: nat, workers: nat)
    requires start < UINT_RANGE && 0 < workers < UINT_RANGE
    ensures Probe(start, d + 1, workers) == Around(From(start), d, workers)
  {
    if d == 0 {
      FirstTurn(start, workers);
    } else {
      ProbeClosed(start, d - 1, workers);
      NextTurn(start, d, workers);
      AroundNext(From(start), d - 1, workers);
    }
  }

  lemma FirstTurn(start: nat, workers: nat)
    requires start < UINT_RANGE && workers > 0
    ensures Probe(start, 1, workers) == Around(From(start), 0, workers)
  {
    assert Probe(start, 1, workers) == Advance(Probe(start, 0, workers), workers);
    assert (start + 1) % UINT_RANGE == From(start);
  }

  lemma NextTurn(start: nat, n: nat, workers: nat)
    requires n > 0 && 0 < workers < UINT_RANGE
    ensures var p := Probe(start, n, workers);
            p < workers && Probe(start, n + 1, workers) == if p + 1 == workers then 0 else p + 1
  {
    AdvanceCyclic(Probe(start, n, workers), workers);
  }

  lemma AroundNext(from: nat, d: nat, workers: nat)
    requires workers > 0
    ensures var a := Around(from, d, workers);
            Around(from, d + 1, workers) == if a + 1 == workers then 0 else a + 1
  {
    StepMod(from + d, workers);
    assert from + (d + 1) == from + d + 1;
  }

  /** Of the workers that `from`, `from` + 1 and so on stand for, `w` is the first in the mask. */
  ghost predicate Nearest(mask: Mask, from: nat, workers: nat, w: nat)
    requires workers > 0
  {
    exists d: nat :: w == Around(from, d, workers) && w in mask
                     && forall e: nat :: e < d ==> Around(from, e, workers) !in mask
  }

  /** The counter's value itself is taken if it is a worker in the mask; otherwise, also if
      it is none, the first worker in the mask is, going around from the next value. */
  lemma TargetClosed(mask: Mask, start: nat, workers: nat, w: nat)
    requires start < UINT_RANGE && 0 < workers < UINT_RANGE
    ensures IsTarget(mask, start, workers, w) <==>
              if start < workers && start in mask then w == start
              else Nearest(mask, if start + 1 == UINT_RANGE then 0 else start + 1, workers, w)
  {
    forall d: nat ensures Probe(start, d + 1, workers) == Around(From(start), d, workers) {
      ProbeClosed(start, d, workers);
    }
    if n: nat :| Hit(mask, start, n, workers, w) {
      if n > 0 {
        assert !Get(mask, Probe(start, 0, workers), workers);
        forall e: nat | e < n - 1 ensures Around(From(start), e, workers) !in mask {
          assert !Get(mask, Probe(start, e + 1, workers), workers);
        }
        assert w == Around(From(start), n - 1, workers);
      } else {
        assert w == start;
      }
    }
    if start < workers && start in mask && w == start {
      assert Hit(mask, start, 0, workers, start);
    }
    if !(start < workers && start in mask) && Nearest(mask, From(start), workers, w) {
      var d: nat :| w == Around(From(start), d, workers) && w in mask
                    && forall e: nat :: e < d ==> Around(From(start), e, workers) !in mask;
      forall j | 0 <= j < d + 1 ensures !Get(mask, Probe(start, j, workers), workers) {
        if j > 0 { assert Around(From(start), j - 1, workers) !in mask; }
      }
      assert Hit(mask, start, d + 1, workers, w);
    }
  }

  // ----- one round of the counter -----------------------------------------

  lemma AroundIs(from: nat, d: nat, workers: nat)
    requires workers > 0 && d < workers
    ensures var r := from % workers + d; Around(from, d, workers) == if r < workers then r else r - workers
  {
    var q, r := from / workers, from % workers;
    Division(from, workers);
    if r + d < workers {
      Remainder(from + d, q, r + d, workers);
    } else {
      assert (q + 1) * workers == q * workers + workers;
      Remainder(from + d, q + 1, r + d - workers, workers);
    }
  }

  /** Worker `w` is the target for one of the `workers` values from `start` on. */
  ghost predicate Served(mask: Mask, start: nat, workers: nat, w: nat)
    requires workers > 0
  {
    exists v: nat :: start <= v < start + workers && IsTarget(mask, v, workers, w)
  }

  lemma NearestHere(mask: Mask, from: nat, workers: nat)
    requires workers > 0 && from % workers in mask
    ensures Nearest(mask, from, workers, from % workers)
  {
    assert Around(from, 0, workers) == from % workers;
  }

  lemma WorkerServed(mask: Mask, start: nat, workers: nat, w: nat)
    requires 0 < workers && start + workers < UINT_RANGE && (start == 0 || start >= workers) && Get(mask, w, workers)
    ensures Served(mask, start, workers, w)
  {
    if start == 0 {
      TargetClosed(mask, w, workers, w);
    } else {
      var d := Ahead((start + 1) % workers, w, workers);
      AroundIs(start + 1, d, workers);
      assert start + 1 + d == From(start + d);
      NearestHere(mask, From(start + d), workers);
      TargetClosed(mask, start + d, workers, w);
    }
  }

  /** From anywhere but a multiple of the worker count, the last worker is nearer than the
      first one. */
  lemma LastNearer(from: nat, workers: nat, d: nat)
    requires workers > 1 && from % workers > 0
    requires forall i: nat :: i < d ==> Around(from, i, workers) !in {0, workers - 1}
    ensures Around(from, d, workers) != 0
  {
    var e := workers - 1 - from % workers;
    AroundIs(from, e, workers);
    assert Around(from, e, workers) == workers - 1;
    if d <= e { AroundIs(from, d, workers); }
  }

  lemma LastIsNearest(from: nat, workers: nat, w: nat)
    requires workers > 1 && from % workers > 0 && Nearest({0, workers - 1}, from, workers, w)
    ensures w != 0
  {
    var d: nat :| w == Around(from, d, workers) && forall i: nat :: i < d ==>
      Around(from, i, workers) !in {0, workers - 1};
    LastNearer(from, workers, d);
  }

  lemma FirstMissed(v: nat, workers: nat)
    requires 0 < v < UINT_RANGE - 1 && 1 < workers < UINT_RANGE && v + 1 < 2 * workers
    ensures !IsTarget({0, workers - 1}, v, workers, 0)
  {
    TargetClosed({0, workers - 1}, v, workers, 0);
    if v + 1 < workers {
      Remainder(v + 1, 0, v + 1, workers);
    } else if v >= workers {
      Remainder(v + 1, 1, v + 1 - workers, workers);
    }
    if v != workers - 1 && Nearest({0, workers - 1}, v + 1, workers, 0) { LastIsNearest(v + 1, workers, 0); }
  }

  lemma FirstUnserved(start: nat, workers: nat)
    requires 0 < start < workers && start + workers < UINT_RANGE
    ensures !Served({0, workers - 1}, start, workers, 0)
  {
    var mask: Mask := {0, workers - 1};
    forall v: nat | start <= v < start + workers ensures !IsTarget(mask, v, workers, 0) {
      FirstMissed(v, workers);
    }
  }

  /** As many successive values of the counter as there are workers reach every worker of
      every mask if and only if they start from zero or beyond the worker count. The turn in
      between passes over a worker, because the value itself is tested before it is brought
      into the range of the workers. */
  lemma RoundServesIff(start: nat, workers: nat)
    requires 0 < workers && start + workers < UINT_RANGE
    ensures (forall mask, w :: Get(mask, w, workers) ==> Served(mask, start, workers, w)) <==>
              start == 0 || start >= workers
  {
    if start == 0 || start >= workers {
      forall mask, w | Get(mask, w, workers) ensures Served(mask, start, workers, w) {
        WorkerServed(mask, start, workers, w);
      }
    } else {
      FirstUnserved(start, workers);
      assert Get({0, workers - 1}, 0, workers);
    }
  }

  /** The search has an outcome if there is a worker to find. */
  lemma TargetExists(mask: Mask, start: nat, workers: nat)
    requires 0 < workers < UINT_RANGE && HasWorker(mask, workers)
    ensures exists w :: IsTarget(mask, start, workers, w)
  {
    SearchEndsIff(mask, start, workers);
    var n: nat :| Get(mask, Probe(start, n, workers), workers);
    FirstHit(mask, start, n, workers);
  }

  lemma {:induction false} FirstHit(mask: Mask, start: nat, n: nat, workers: nat)
    requires workers > 0 && Get(mask, Probe(start, n, workers), workers)
    ensures exists w :: IsTarget(mask, start, workers, w)
  {
    if j: nat :| j < n && Get(mask, Probe(start, j, workers), workers) {
      FirstHit(mask, start, j, workers);
    } else {
      assert Hit(mask, start, n, workers, Probe(start, n, workers));
      assert IsTarget(mask, start, workers, Probe(start, n, workers));
    }
  }

  /** The search has one outcome. */
  lemma TargetUnique(mask: Mask, start: nat, workers: nat, v: nat, w: nat)
    requires workers > 0
    requires IsTarget(mask, start, workers, v) && IsTarget(mask, start, workers, w)
    ensures v == w
  {
    var m: nat :| Hit(mask, start, m, workers, v);
    var n: nat :| Hit(mask, start, n, workers, w);
    assert Get(mask, Probe(start, m, workers), workers) && Get(mask, Probe(start, n, workers), workers);
  }
}
