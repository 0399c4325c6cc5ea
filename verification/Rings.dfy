/** Ring buffers: a fixed array, a number of available elements, and two positions
    that wrap around at the end. Task queues and id pools are built this way. */
module Rings {

  datatype Ring<T> = Ring(buffer: seq<T>, available: nat, get: nat, put: nat)

  // ----- bounded queues ---------------------------------------------------

  /** What a successful push does to a bounded queue. */
  predicate Appends<T(==)>(before: seq<T>, after: seq<T>, limit: nat, x: T) {
    |before| < limit && after == before + [x]
  }

  /** What a successful pop does. */
  predicate TakesHead<T(==)>(before: seq<T>, after: seq<T>, x: T) {
    before == [x] + after
  }

  // ----- rings ------------------------------------------------------------

  /** A position after it was advanced past the end of the buffer. */
  function Wrap(position: nat, limit: nat): nat {
    if limit <= position then 0 else position
  }

  /** The buffer index `i` places after `get`. */
  function Slot(get: nat, i: nat, limit: nat): nat {
    if get + i < limit then get + i else get + i - limit
  }

  ghost predicate RingOk<T>(r: Ring<T>) {
    var limit := |r.buffer|;
    && r.available <= limit
    && if limit == 0 then r.get == 0 && r.put == 0 else r.get < limit && r.put == Slot(r.get, r.available, limit)
  }

  /** The available elements, oldest first. */
  ghost function Contents<T>(r: Ring<T>): (elements: seq<T>)
    requires RingOk(r)
    ensures |elements| == r.available
  {
    seq(r.available, i requires 0 <= i < r.available => r.buffer[Slot(r.get, i, |r.buffer|)])
  }

  /** The fields after an element was put. */
  function Put<T>(r: Ring<T>, x: T): Ring<T>
    requires r.put < |r.buffer|
  {
    Ring(r.buffer[r.put := x], r.available + 1, r.get, Wrap(r.put + 1, |r.buffer|))
  }

  /** The fields after an element was got and its slot cleared. */
  function Got<T>(r: Ring<T>, cleared: T): Ring<T>
    requires r.available > 0 && r.get < |r.buffer|
  {
    Ring(r.buffer[r.get := cleared], r.available - 1, Wrap(r.get + 1, |r.buffer|), r.put)
  }

  /** Putting appends. */
  lemma PutAppends<T>(r: Ring<T>, x: T)
    requires RingOk(r) && r.available < |r.buffer|
    ensures RingOk(Put(r, x)) && Contents(Put(r, x)) == Contents(r) + [x]
  {
    var limit := |r.buffer|;
    forall i | 0 <= i < r.available ensures Slot(r.get, i, limit) != r.put {
    }
  }

  /** Getting removes the oldest element. */
  lemma GotRemoves<T>(r: Ring<T>, cleared: T)
    requires RingOk(r) && r.available > 0
    ensures r.buffer[r.get] == Contents(r)[0]
    ensures RingOk(Got(r, cleared)) && Contents(Got(r, cleared)) == Contents(r)[1..]
  {
    var limit := |r.buffer|;
    var next := Got(r, cleared);
    assert Slot(r.get, 0, limit) == r.get;
    forall i | 0 <= i < next.available ensures Slot(next.get, i, limit) == Slot(r.get, i + 1, limit) != r.get {
    }
  }
}
