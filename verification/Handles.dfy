/** Handles of pooled objects. */
module Handles {
  import opened Common

  /** The id of a slot and its tag, which is bumped whenever the slot is deallocated. */
  datatype Handle = Handle(id: nat, tag: nat)

  /** A handle that was given out, with the number of deallocations of its slot
      before that. */
  datatype Issue = Issue(id: nat, generation: nat) {
    function AsHandle(): Handle {
      Handle(id, generation % UINT_RANGE)
    }
  }

  /** The validity check every access through a handle makes. */
  predicate Passes(tags: map<nat, nat>, capacity: nat, h: Handle) {
    0 < h.id <= capacity && h.id in tags && tags[h.id] == h.tag
  }

  /** The tags of slots that have been deallocated so often. */
  function TagsAfter(bumps: map<nat, nat>): (tags: map<nat, nat>)
    ensures forall id :: id in tags <==> id in bumps
  {
    map id | id in bumps :: bumps[id] % UINT_RANGE
  }
}
