/** The pool of object ids, used by one thread at a time. */
module Pools {
  import opened Common
  import opened Rings

  const INVALID_ID: nat := 0

  /** The free ids, each listed once, and the ids handed out together are 1 to
      `capacity`, and no id is both. */
  ghost predicate Partition(free: seq<nat>, handed: set<nat>, capacity: nat) {
    && Distinct(free) && (forall id :: id in free ==> id !in handed)
    && (forall id: nat :: 0 < id <= capacity <==> id in free || id in handed)
  }

  /** There are as many ids as the capacity says, so none is free exactly if all have
      been handed out. */
  lemma PartitionCount(free: seq<nat>, handed: set<nat>, capacity: nat)
    requires Partition(free, handed, capacity)
    ensures |free| + |handed| == capacity
  {
    var ids := set id | id in free;
    DistinctCardinality(free, ids);
    IdSets(ids, handed, capacity);
  }

  lemma IdSets(a: set<nat>, b: set<nat>, capacity: nat)
    requires a !! b && forall id: nat :: 0 < id <= capacity <==> id in a || id in b
    ensures |a| + |b| == capacity
  {
    var all := Below(capacity + 1) - {0};
    assert all == a + b;
  }

  /** Handing out the first free id, which was not handed out before. */
  lemma IdTaken(free: seq<nat>, handed: set<nat>, capacity: nat)
    requires Partition(free, handed, capacity) && free != []
    ensures Partition(free[1..], handed + {free[0]}, capacity) && 0 < free[0] <= capacity && free[0] !in handed
  {
    var first, rest := free[0], free[1..];
    assert free == [first] + rest;
    assert first in free && first !in rest;
    forall id ensures id in free <==> id == first || id in rest {
    }
    assert forall i :: 0 <= i < |rest| ==> rest[i] == free[i + 1];
  }

  lemma TakeFirst(free: seq<nat>, handed: set<nat>, capacity: nat)
    requires Partition(free, handed, capacity)
    ensures free == [] ==> |handed| == capacity && INVALID_ID !in handed
    ensures free != [] ==> Partition(free[1..], handed + {free[0]}, capacity) && free[0] !in handed
    ensures free != [] ==> free[0] != INVALID_ID && |handed| < capacity
  {
    PartitionCount(free, handed, capacity);
    if free != [] { IdTaken(free, handed, capacity); }
  }

  lemma IdReturned(free: seq<nat>, handed: set<nat>, capacity: nat, id: nat)
    requires Partition(free, handed, capacity) && id in handed
    ensures |free| < capacity && Partition(free + [id], handed - {id}, capacity)
  {
    PartitionCount(free, handed, capacity);
    assert handed == handed - {id} + {id};
    assert forall x :: x in free + [id] <==> x in free || x == id;
  }

  /** Any other id that is put back spoils the partition. */
  lemma ForeignId(free: seq<nat>, handed: set<nat>, capacity: nat, id: nat)
    requires Partition(free, handed, capacity) && id !in handed
    ensures !Partition(free + [id], handed - {id}, capacity)
  {
    var more := free + [id];
    assert more[|free|] == id;
    if id in free {
      var i :| 0 <= i < |free| && free[i] == id;
      assert more[i] == id;
    }
  }

  /** Putting an id back keeps the partition exactly if it had been handed out, or the
      pool ignores it because all ids are free. */
  lemma ReturnIff(free: seq<nat>, handed: set<nat>, capacity: nat, id: nat)
    requires Partition(free, handed, capacity)
    ensures Partition(if |free| < capacity then free + [id] else free, handed - {id}, capacity) <==>
              id in handed || handed == {}
  {
    PartitionCount(free, handed, capacity);
    if id in handed {
      IdReturned(free, handed, capacity, id);
    } else {
      ForeignId(free, handed, capacity, id);
      assert handed - {id} == handed;
    }
  }

  /** Where an id is missing from a list of different ids there is room for it. */
  lemma RoomFor(free: seq<nat>, capacity: nat, id: nat)
    requires Distinct(free) && (forall x :: x in free ==> 0 < x <= capacity)
    requires 0 < id <= capacity && id !in free
    ensures |free| < capacity
  {
    var ids := set x | x in free;
    DistinctCardinality(free, ids);
    SubsetCardinality(ids, Below(capacity + 1) - {0} - {id});
  }

  class IdPool {
    const capacity: nat
    var buffer: array<nat>
    var available: nat
    var getPosition: nat
    var putPosition: nat
    ghost var handed: set<nat>    // ids handed out and not put back

    ghost function View(): Ring<nat>
      reads this, buffer
    {
      Ring(buffer[..], available, getPosition, putPosition)
    }

    ghost predicate Valid()
      reads this, buffer
    {
      && buffer.Length == capacity + 1 && available <= capacity
      && (capacity > 0 ==> RingOk(View()))
    }

    /** The free ids in the order in which they will be handed out. */
    ghost function Free(): (ids: seq<nat>)
      requires Valid()
      reads this, buffer
      ensures |ids| == available
    {
      if capacity == 0 then [] else Contents(View())
    }

    /** Free and handed out ids make up all ids. */
    ghost predicate Partitioned()
      requires Valid()
      reads this, buffer
    {
      Partition(Free(), handed, capacity)
    }

    constructor (capacity: nat)
      ensures Valid() && this.capacity == capacity && fresh(buffer)
      ensures Free() == seq(capacity, i => i + 1)
      ensures Partitioned() && handed == {}
    {
      this.capacity := capacity;
      var ids := new nat[capacity + 1](i => i);
      ids[0] := INVALID_ID;
      buffer := ids;
      available, putPosition, getPosition := capacity, 0, 1;
      handed := {};
      new;
      assert Free() == seq(capacity, i => i + 1);
      forall id: nat | 0 < id <= capacity ensures id in Free() {
        assert Free()[id - 1] == id;
      }
    }

    /** The id that has been free for longest, or the invalid id if none is free. No id is
        handed out twice. */
    method Allocate() returns (id: nat)
      requires Valid()
      modifies this`available, this`getPosition, this`handed, buffer
      ensures Valid()
      ensures handed == if old(Free()) == [] then old(handed) else old(handed) + {id}
      ensures old(Partitioned()) ==>
                Partitioned() && id !in old(handed) && (id == INVALID_ID <==> |old(handed)| == capacity)
      ensures old(Free()) == [] ==> id == INVALID_ID && Free() == []
      ensures old(Free()) != [] ==> id == old(Free())[0] && Free() == old(Free())[1..]
    {
      id := INVALID_ID;
      if Partitioned() { TakeFirst(Free(), handed, capacity); }
      if 0 < available {
        ghost var before := View();
        GotRemoves(before, INVALID_ID);
        available := available - 1;
        var position := getPosition;
        getPosition := getPosition + 1;
        if capacity < getPosition {
          getPosition := 0;
        }
        id := buffer[position];
        buffer[position] := INVALID_ID;
        handed := handed + {id};
        assert View() == Got(before, INVALID_ID);
      }
    }

    /** The id joins the end of the free ones, unless all ids are free already. The ids
        remain partitioned exactly if it had been handed out, or none had. */
    method Deallocate(id: nat)
      requires Valid()
      modifies this`available, this`putPosition, this`handed, buffer
      ensures Valid()
      ensures handed == old(handed) - {id}
      ensures old(Partitioned()) ==> (Partitioned() <==> id in old(handed) || old(handed) == {})
      ensures Free() == if |old(Free())| < capacity then old(Free()) + [id] else old(Free())
    {
      if Partitioned() { ReturnIff(Free(), handed, capacity, id); }
      handed := handed - {id};
      if capacity > available {
        ghost var before := View();
        PutAppends(before, id);
        var position := putPosition;
        putPosition := putPosition + 1;
        if capacity < putPosition {
          putPosition := 0;
        }
        buffer[position] := id;
        available := available + 1;
        assert View() == Put(before, id);
      }
    }
  }
}
