/** Types and sequence facts that several components share. */
module Common {

  datatype Option<+T> = None | Some(value: T)

  /** Number of values of the C type `unsigned int`. */
  const UINT_RANGE: nat := 0x1_0000_0000

  /** The queues of the scheduler: each worker owns one public queue (open to
      stealing) and one private queue for every priority. */
  datatype QueueId =
    | Public(worker: nat, priority: nat)
    | Private(worker: nat, priority: nat)

  predicate QueueExists(q: QueueId, workers: nat, priorities: nat) {
    q.worker < workers && q.priority < priorities
  }

  /** The queues worker `w` may take tasks from: its own private ones and all
      public ones. */
  predicate Eligible(w: nat, q: QueueId) {
    q.Public? || q.worker == w
  }

  predicate Distinct<T(==)>(s: seq<T>) {
    forall i, j :: 0 <= i < j < |s| ==> s[i] != s[j]
  }

  /** A repetition-free sequence has as many elements as the set it lists. */
  lemma {:induction false} DistinctCardinality<T>(s: seq<T>, all: set<T>)
    requires Distinct(s)
    requires forall x :: x in all <==> x in s
    ensures |s| == |all|
  {
    if s == [] {
      assert all == {};
    } else {
      var last := s[|s| - 1];
      var init := s[..|s| - 1];
      forall x ensures x in all - {last} <==> x in init {
        if x in all && x != last {
          var i :| 0 <= i < |s| && s[i] == x;
          assert init[i] == x;
        }
      }
      DistinctCardinality(init, all - {last});
    }
  }

  /** Two counters agree in 32 bits exactly if they differ by a multiple of 2^32. */
  lemma SameResidue(a: nat, b: nat)
    requires b <= a
    ensures a % UINT_RANGE == b % UINT_RANGE <==> (a - b) % UINT_RANGE == 0
  {
  }

  /** The numbers below `n`, and how many of them there are. */
  function Below(n: nat): (r: set<nat>)
    ensures forall k: nat :: k in r <==> k < n
    ensures |r| == n
  {
    if n == 0 then {} else
      var r := Below(n - 1);
      assert n - 1 !in r;
      r + {n - 1}
  }

  /** A number above all of a set. */
  lemma FreshAbove(names: set<nat>) returns (j: nat)
    ensures forall k :: k in names ==> k < j
    decreases |names|
  {
    if names == {} {
      j := 0;
    } else {
      var k :| k in names;
      var above := FreshAbove(names - {k});
      j := if k < above then above else k + 1;
      forall x | x in names ensures x < j {
        if x != k { assert x in names - {k}; }
      }
    }
  }

  lemma SubsetCardinality<T>(a: set<T>, b: set<T>)
    requires a <= b
    ensures |a| <= |b|
  {
    assert b == a + (b - a);
  }

  lemma FourParts<T>(all: set<T>, w: set<T>, x: set<T>, y: set<T>, z: set<T>)
    requires all == w + x + y + z && w !! x && w + x !! y && w + x + y !! z
    ensures |all| == |w| + |x| + |y| + |z|
  {
  }
}
