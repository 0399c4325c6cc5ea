/** The allocator of debug builds: it prepends its own header to every block, aligns
    the payload by masking and stepping, and counts the bytes in use. */
module AlignedAlloc {
  import opened Common

  // ----- masking ----------------------------------------------------------

  function Pow2(k: nat): (r: nat)
    ensures r > 0
  {
    if k == 0 then 1 else 2 * Pow2(k - 1)
  }

  /** Bitwise conjunction of two unsigned numbers. */
  function And(a: nat, b: nat): nat {
    if a == 0 || b == 0 then 0 else (if a % 2 == 1 && b % 2 == 1 then 1 else 0) + 2 * And(a / 2, b / 2)
  }

  lemma {:induction false} Pow2Monotone(k: nat, n: nat)
    requires k <= n
    ensures Pow2(k) <= Pow2(n)
  {
    if k < n { Pow2Monotone(k, n - 1); }
  }

  /** Dropping the lowest bit of a remainder. */
  lemma HalfRemainder(x: nat, m: nat)
    requires m > 0
    ensures x % (2 * m) == 2 * ((x / 2) % m) + x % 2
  {
    var q, r := (x / 2) / m, (x / 2) % m;
    assert x / 2 == q * m + r;
    var rest := 2 * r + x % 2;
    assert x == q * (2 * m) + rest && 0 <= rest < 2 * m by {
      assert x == 2 * (x / 2) + x % 2;
      assert 2 * (q * m) == q * (2 * m);
    }
    Remainder(x, q, 2 * m, rest);
  }

  lemma Remainder(x: nat, q: nat, m: nat, r: nat)
    requires r < m && x == q * m + r
    ensures x % m == r && x / m == q
  {
    var d: int := x / m - q;
    assert x == x / m * m + x % m;
    assert d * m == r - x % m;
    assert d >= 1 ==> d * m >= m;
    assert d <= -1 ==> d * m + m <= 0;
  }

  lemma AndDouble(x: nat, b: nat)
    ensures And(x, 2 * b) == 2 * And(x / 2, b)
    ensures And(x, 2 * b + 1) == 2 * And(x / 2, b) + x % 2
  {
    assert (2 * b) / 2 == b && (2 * b + 1) / 2 == b;
  }

  lemma MaskStep(x: nat, half: nat, m: nat)
    requires m > 0 && And(x / 2, half) == x / 2 - (x / 2) % m
    ensures And(x, 2 * half) == x - x % (2 * m)
  {
    AndDouble(x, half);
    HalfRemainder(x, m);
  }

  lemma {:induction false} AndOnes(x: nat, n: nat)
    requires x < Pow2(n)
    ensures And(x, Pow2(n) - 1) == x
  {
    if n > 0 {
      AndOnes(x / 2, n - 1);
      AndDouble(x, Pow2(n - 1) - 1);
    }
  }

  /** The mask of ones above bit `k` in a word of `n` bits clears the bits below `k`:
      what remains is the greatest multiple of 2^k that is not above `x`. */
  lemma {:induction false} MaskClears(x: nat, n: nat, k: nat)
    requires k <= n && x < Pow2(n)
    ensures Pow2(k) <= Pow2(n) && And(x, Pow2(n) - Pow2(k)) == x - x % Pow2(k)
  {
    Pow2Monotone(k, n);
    if k == 0 {
      AndOnes(x, n);
    } else {
      MaskClears(x / 2, n - 1, k - 1);
      MaskStep(x, Pow2(n - 1) - Pow2(k - 1), Pow2(k - 1));
    }
  }

  // ----- the aligned address ----------------------------------------------

  /** Complement in a word of `bits` bits. */
  function Not(bits: nat, v: nat): nat
    requires v < Pow2(bits)
  {
    Pow2(bits) - 1 - v
  }

  /** The number of alignment cells a payload takes. */
  function Cells(alignment: nat, size: nat): nat
    requires alignment > 0
  {
    (size + (alignment - 1)) / alignment
  }

  /** What is requested from the system for an aligned payload. */
  function BlockSize(word: nat, alignment: nat, size: nat): nat
    requires word > 0 && alignment > 0
  {
    (Cells(alignment, size) + 1) * alignment + (3 * word - 1)
  }

  /** `x` is aligned, with room for the header before it, and not further away from
      the start of the block than necessary. */
  predicate FirstAligned(base: nat, word: nat, alignment: nat, x: nat)
    requires alignment > 0
  {
    x % alignment == 0 && base + 3 * word <= x < base + 3 * word + alignment
  }

  lemma NextMultiple(x: nat, m: nat)
    requires m > 0 && x % m == 0
    ensures (x + m) % m == 0
  {
    Remainder(x + m, x / m + 1, m, 0);
  }

  lemma LastMultiple(x: nat, m: nat)
    requires m > 0
    ensures (x - x % m) % m == 0
  {
    Remainder(x - x % m, x / m, m, 0);
  }

  lemma MultipleOfMultiple(x: nat, m: nat, w: nat)
    requires w > 0 && m > 0 && x % m == 0 && m % w == 0
    ensures x % w == 0
  {
    var i, j := x / m, m / w;
    assert x == i * m && m == j * w;
    assert x == (i * j) * w;
    Remainder(x, i * j, w, 0);
  }

  /** Masks off the low bits and steps until the header fits. */
  method AlignedAddress(base: nat, word: nat, bits: nat, k: nat) returns (x: nat)
    requires word > 0 && k <= bits && base + Pow2(k) < Pow2(bits)
    ensures FirstAligned(base, word, Pow2(k), x)
  {
    var alignment := Pow2(k);
    x := And(base + alignment, Not(bits, alignment - 1));
    MaskClears(base + alignment, bits, k);
    LastMultiple(base + alignment, alignment);
    while x - base < 3 * word
      invariant x % alignment == 0 && base < x < base + 3 * word + alignment
      decreases base + 3 * word - x
    {
      var next := x + alignment;
      NextMultiple(x, alignment);
      x := next;
    }
  }

  lemma EnoughCells(alignment: nat, size: nat)
    requires alignment > 0
    ensures size <= Cells(alignment, size) * alignment
  {
    var sum := size + (alignment - 1);
    assert sum == sum / alignment * alignment + sum % alignment;
  }

  /** The requested size always suffices: all cells of the payload lie in the block. */
  lemma PayloadFits(base: nat, word: nat, alignment: nat, size: nat, x: nat)
    requires word > 0 && alignment > 0 && FirstAligned(base, word, alignment, x)
    ensures x + size <= x + Cells(alignment, size) * alignment <= base + BlockSize(word, alignment, size)
  {
    EnoughCells(alignment, size);
    var n := Cells(alignment, size);
    assert (n + 1) * alignment == n * alignment + alignment;
  }

  /** No aligned address before `x` has room for the header. */
  lemma FirstIsLeast(base: nat, word: nat, alignment: nat, x: nat, y: nat)
    requires alignment > 0 && FirstAligned(base, word, alignment, x)
    requires y % alignment == 0 && base + 3 * word <= y
    ensures x <= y
  {
    var i, j := x / alignment, y / alignment;
    assert x == i * alignment && y == j * alignment;
    assert j < i ==> (j + 1) * alignment <= i * alignment;
    assert (j + 1) * alignment == j * alignment + alignment;
  }

  lemma CellsOf(alignment: nat, n: nat)
    requires alignment > 0
    ensures Cells(alignment, n * alignment) == n && (n + 1) * alignment == n * alignment + alignment
  {
    Remainder(n * alignment + (alignment - 1), n, alignment, alignment - 1);
  }

  lemma Distribute(w: nat, alignment: nat)
    requires alignment > 0
    ensures (w + 1) * alignment == w + w * (alignment - 1) + alignment && w * (alignment - 1) >= 0
  {
  }

  lemma FarEnough(word: nat, alignment: nat)
    requires word > 0 && alignment > 0
    ensures (3 * word + 1) * alignment >= 3 * word + alignment && ((3 * word + 1) * alignment) % alignment == 0
  {
    var w := 3 * word;
    Distribute(w, alignment);
    Remainder((w + 1) * alignment, w + 1, alignment, 0);
  }

  /** A block one byte smaller would not do: for a payload of `n` whole cells some start
      address makes use of the last byte. */
  lemma BlockSizeTight(word: nat, alignment: nat, n: nat)
    requires word > 0 && alignment > 0
    ensures exists base: nat, x: nat :: FirstAligned(base, word, alignment, x) &&
              x + n * alignment == base + BlockSize(word, alignment, n * alignment)
  {
    FarEnough(word, alignment);
    CellsOf(alignment, n);
    var x := (3 * word + 1) * alignment;
    var base := x - (3 * word + alignment - 1);
    assert FirstAligned(base, word, alignment, x);
  }

  // ----- sizes that wrap around -------------------------------------------

  /** The size as it is computed in a word of `bits` bits. */
  function Requested(bits: nat, word: nat, alignment: nat, size: nat): nat
    requires word > 0 && alignment > 0
  {
    (((size + (alignment - 1)) % Pow2(bits) / alignment + 1) * alignment + (3 * word - 1)) % Pow2(bits)
  }

  /** The computation of the size does not wrap around. */
  predicate Representable(bits: nat, word: nat, alignment: nat, size: nat)
    requires word > 0 && alignment > 0
  {
    size + (alignment - 1) < Pow2(bits) && BlockSize(word, alignment, size) < Pow2(bits)
  }

  lemma RequestedModulo(bits: nat, word: nat, alignment: nat, size: nat)
    requires word > 0 && alignment > 0 && size + (alignment - 1) < Pow2(bits)
    ensures Requested(bits, word, alignment, size) == BlockSize(word, alignment, size) % Pow2(bits)
  {
    Remainder(size + (alignment - 1), 0, Pow2(bits), size + (alignment - 1));
  }

  lemma RequestedExact(bits: nat, word: nat, alignment: nat, size: nat)
    requires word > 0 && alignment > 0 && Representable(bits, word, alignment, size)
    ensures Requested(bits, word, alignment, size) == BlockSize(word, alignment, size)
  {
    RequestedModulo(bits, word, alignment, size);
    Remainder(BlockSize(word, alignment, size), 0, Pow2(bits), BlockSize(word, alignment, size));
  }

  /** Once the sum wraps around, the size is that of an empty payload. */
  lemma SumWraps(range: nat, word: nat, alignment: nat, size: nat)
    requires word > 0 && 0 < alignment && 2 * alignment <= range && size < range <= size + (alignment - 1)
    ensures (size + (alignment - 1)) % range / alignment == 0
  {
    var rest := size + (alignment - 1) - range;
    Remainder(size + (alignment - 1), 1, range, rest);
    Remainder(rest, 0, alignment, rest);
  }

  /** Once only the product wraps around, the size is short by the whole range. */
  lemma ProductWraps(range: nat, word: nat, alignment: nat, size: nat)
    requires word > 0 && 0 < alignment && 2 * alignment <= range && 6 * word <= range && size + (alignment - 1) < range
    requires BlockSize(word, alignment, size) >= range
    ensures BlockSize(word, alignment, size) % range == BlockSize(word, alignment, size) - range
    ensures BlockSize(word, alignment, size) <= size + 2 * alignment + 3 * word - 2
  {
    var sum := size + (alignment - 1);
    var n := sum / alignment;
    assert n * alignment <= sum by {
      assert sum == n * alignment + sum % alignment;
    }
    assert (n + 1) * alignment == n * alignment + alignment;
    Remainder(BlockSize(word, alignment, size), 1, range, BlockSize(word, alignment, size) - range);
  }

  lemma SumNeverFits(bits: nat, word: nat, alignment: nat, size: nat, base: nat, x: nat)
    requires word > 0 && 0 < alignment && 2 * alignment <= Pow2(bits) && size < Pow2(bits) <= size + (alignment - 1)
    requires base + 3 * word <= x
    ensures x + size > base + Requested(bits, word, alignment, size)
  {
    SumWraps(Pow2(bits), word, alignment, size);
    ModAtMost(alignment + (3 * word - 1), Pow2(bits));
  }

  lemma ProductNeverFits(bits: nat, word: nat, alignment: nat, size: nat, base: nat, x: nat)
    requires word > 0 && 0 < alignment && 2 * alignment <= Pow2(bits) && 6 * word <= Pow2(bits)
    requires size + (alignment - 1) < Pow2(bits) && BlockSize(word, alignment, size) >= Pow2(bits)
    requires base + 3 * word <= x
    ensures x + size > base + Requested(bits, word, alignment, size)
  {
    RequestedModulo(bits, word, alignment, size);
    ProductWraps(Pow2(bits), word, alignment, size);
  }

  /** For an alignment of at most half the range, the requested block can hold header and
      payload at the aligned address if and only if its size did not wrap around; then
      it can at every start address, otherwise at none. */
  lemma FitsIff(bits: nat, word: nat, k: nat, size: nat, base: nat, x: nat)
    requires word > 0 && k < bits && size < Pow2(bits) && 6 * word <= Pow2(bits) && FirstAligned(base, word, Pow2(k), x)
    ensures x + size <= base + Requested(bits, word, Pow2(k), size) <==> Representable(bits, word, Pow2(k), size)
  {
    Pow2Monotone(k, bits - 1);
    if Representable(bits, word, Pow2(k), size) {
      RequestedExact(bits, word, Pow2(k), size);
      PayloadFits(base, word, Pow2(k), size, x);
    } else if size + (Pow2(k) - 1) >= Pow2(bits) {
      SumNeverFits(bits, word, Pow2(k), size, base, x);
    } else {
      ProductNeverFits(bits, word, Pow2(k), size, base, x);
    }
  }

  lemma ModAtMost(a: nat, m: nat)
    requires m > 0
    ensures a % m <= a
  {
    assert a == a / m * m + a % m;
  }

  /** The same for unaligned blocks. */
  function PlainRequested(bits: nat, word: nat, size: nat): nat {
    (2 * word + size) % Pow2(bits)
  }

  lemma PlainFitsIff(bits: nat, word: nat, size: nat, base: nat)
    ensures base + 2 * word + size <= base + PlainRequested(bits, word, size) <==> 2 * word + size < Pow2(bits)
    ensures 2 * word + size < Pow2(bits) ==> PlainRequested(bits, word, size) == 2 * word + size
  {
    if 2 * word + size < Pow2(bits) { Remainder(2 * word + size, 0, Pow2(bits), 2 * word + size); }
  }

  // ----- blocks -----------------------------------------------------------

  const INVALID_ALLOCATION: nat := 0x91919191
  const ALIGNED_ALLOCATION: nat := 0x99AABB11
  const UNALIGNED_ALLOCATION: nat := 0x11AABB99

  /** A block obtained from the system for a payload. */
  datatype Block = Block(base: nat, bytes: nat, aligned: bool)

  predicate Inside(a: nat, b: Block) {
    b.base <= a < b.base + b.bytes
  }

  predicate Disjoint(b: Block, c: Block) {
    b.base + b.bytes <= c.base || c.base + c.bytes <= b.base
  }

  function HeaderSize(word: nat, b: Block): nat {
    if b.aligned then 3 * word else 2 * word
  }

  predicate Holds(memory: map<nat, nat>, a: int, value: nat) {
    a >= 0 && a in memory && memory[a] == value
  }

  /** The words before payload `p` describe its block. */
  predicate HeaderOk(memory: map<nat, nat>, word: nat, p: nat, b: Block) {
    && b.base > 0 && b.base + HeaderSize(word, b) <= p <= b.base + b.bytes
    && (if b.aligned
        then
          && Holds(memory, p - word, ALIGNED_ALLOCATION) && Holds(memory, p - 2 * word, b.base)
          && Holds(memory, p - 3 * word, b.bytes)
        else
          && p == b.base + 2 * word && Holds(memory, p - word, UNALIGNED_ALLOCATION)
          && Holds(memory, p - 2 * word, b.bytes))
  }

  lemma UnalignedHeader(memory: map<nat, nat>, word: nat, start: nat, bytes: nat)
    requires word > 0 && start > 0 && 2 * word <= bytes
    ensures HeaderOk(memory[start + word := UNALIGNED_ALLOCATION][start := bytes], word, start + 2 * word,
                     Block(start, bytes, false))
    ensures Inside(start, Block(start, bytes, false)) && Inside(start + word, Block(start, bytes, false))
  {
  }

  lemma MarkerInside(memory: map<nat, nat>, word: nat, p: nat, b: Block)
    requires word > 0 && HeaderOk(memory, word, p, b)
    ensures p >= word && Inside(p - word, b)
  {
  }

  /** Writes to a payload leave its header alone. */
  lemma PayloadWritten(memory: map<nat, nat>, word: nat, p: nat, b: Block, a: nat, value: nat)
    requires word > 0 && HeaderOk(memory, word, p, b) && p <= a
    ensures HeaderOk(memory[a := value], word, p, b)
  {
  }

  /** Writes outside its block leave a header alone. */
  lemma HeaderKept(memory: map<nat, nat>, memory': map<nat, nat>, word: nat, p: nat, b: Block)
    requires word > 0 && HeaderOk(memory, word, p, b)
    requires forall a :: a in memory && Inside(a, b) ==> a in memory' && memory'[a] == memory[a]
    ensures HeaderOk(memory', word, p, b)
  {
  }

  // ----- the byte counter -------------------------------------------------

  ghost function Total(live: map<nat, Block>): nat
    decreases |live|
  {
    if live == map[] then 0 else
      var p :| p in live;
      live[p].bytes + Total(live - {p})
  }

  lemma {:induction false} TotalWithout(live: map<nat, Block>, p: nat)
    requires p in live
    ensures Total(live) == live[p].bytes + Total(live - {p})
    decreases |live|
  {
    var q :| q in live && Total(live) == live[q].bytes + Total(live - {q});
    if q != p {
      TotalWithout(live - {q}, p);
      TotalWithout(live - {p}, q);
      assert live - {q} - {p} == live - {p} - {q};
    }
  }

  lemma TotalWith(live: map<nat, Block>, p: nat, b: Block)
    requires p !in live
    ensures Total(live[p := b]) == b.bytes + Total(live)
  {
    TotalWithout(live[p := b], p);
    assert live[p := b] - {p} == live;
  }

  ghost predicate Separate(live: map<nat, Block>) {
    forall p, q :: p in live && q in live && p != q ==> Disjoint(live[p], live[q])
  }

  /** Live blocks that do not overlap cannot add up to more than the addresses, so the
      counter never wraps around. */
  lemma {:induction false} TotalBound(live: map<nat, Block>, free: set<nat>)
    requires Separate(live) && forall p, a: nat :: p in live && Inside(a, live[p]) ==> a in free
    ensures Total(live) <= |free|
    decreases |live|
  {
    if live != map[] {
      var p :| p in live && Total(live) == live[p].bytes + Total(live - {p});
      var rest := live - {p};
      var range := Range(live[p].base, live[p].bytes);
      forall q, a: nat | q in rest && Inside(a, rest[q]) ensures a in free - range {
        assert Disjoint(live[p], live[q]);
      }
      TotalBound(rest, free - range);
      forall a | a in range ensures a in free {
        assert Inside(a, live[p]);
      }
      assert free == (free - range) + range;
    }
  }

  function Range(from: nat, n: nat): (r: set<nat>)
    ensures forall a: nat :: a in r <==> from <= a < from + n
    ensures |r| == n
  {
    if n == 0 then {} else
      var r := Range(from, n - 1);
      assert from + n - 1 !in r;
      r + {from + n - 1}
  }

  /** Addition in the type of the counter, for operands of that type. */
  function Plus(bits: nat, a: nat, b: nat): nat {
    if a + b < Pow2(bits) then a + b else a + b - Pow2(bits)
  }

  lemma PlusWraps(bits: nat, a: nat, b: nat)
    requires a < Pow2(bits) && b <= Pow2(bits)
    ensures Plus(bits, a, b) == (a + b) % Pow2(bits)
  {
    var range, sum := Pow2(bits), a + b;
    if sum < range { Remainder(sum, 0, range, sum); } else { Remainder(sum, 1, range, sum - range); }
  }

  // ----- the books --------------------------------------------------------

  /** Every live payload has its header, the blocks do not overlap, and the counter is
      the sum of their sizes. */
  ghost predicate Books(word: nat, bits: nat, memory: map<nat, nat>, live: map<nat, Block>, count: nat) {
    && (forall p :: p in live ==> HeaderOk(memory, word, p, live[p]) && live[p].base + live[p].bytes <= Pow2(bits))
    && Separate(live)
    && count == Total(live)
  }

  /** What the system promises of a new block: it lies in the address space, not at the
      null address, and overlaps no block in use. */
  ghost predicate Fresh(bits: nat, live: map<nat, Block>, base: nat, bytes: nat) {
    0 < base && base + bytes <= Pow2(bits) && forall q :: q in live ==> Disjoint(Block(base, bytes, true), live[q])
  }

  /** The counter stays below the number of addresses. */
  lemma CountBound(word: nat, bits: nat, memory: map<nat, nat>, live: map<nat, Block>)
    requires Books(word, bits, memory, live, Total(live))
    ensures Total(live) < Pow2(bits)
  {
    forall q, a: nat | q in live && Inside(a, live[q]) ensures a in Below(Pow2(bits)) - {0} {
      assert HeaderOk(memory, word, q, live[q]);
    }
    TotalBound(live, Below(Pow2(bits)) - {0});
  }

  /** Payload `p` in the new block `b` is entered. */
  lemma Added(word: nat, bits: nat, memory: map<nat, nat>, live: map<nat, Block>, p: nat, b: Block,
              memory': map<nat, nat>)
    requires word > 0 && Books(word, bits, memory, live, Total(live))
    requires Fresh(bits, live, b.base, b.bytes) && HeaderOk(memory', word, p, b)
    requires forall a :: a in memory && !Inside(a, b) ==> a in memory' && memory'[a] == memory[a]
    ensures p !in live && Books(word, bits, memory', live[p := b], Plus(bits, Total(live), b.bytes))
  {
    var more := live[p := b];
    forall q | q in live ensures q != p && HeaderOk(memory', word, q, live[q]) {
      assert Disjoint(Block(b.base, b.bytes, true), live[q]);
      assert HeaderOk(memory, word, q, live[q]);
      HeaderKept(memory, memory', word, q, live[q]);
    }
    TotalWith(live, p, b);
    CountBound(word, bits, memory', more);
  }

  /** The header of an unaligned block is written and its payload entered. */
  lemma PlainAdded(word: nat, bits: nat, memory: map<nat, nat>, live: map<nat, Block>, start: nat, bytes: nat)
    requires word > 0 && Books(word, bits, memory, live, Total(live))
    requires 2 * word <= bytes && Fresh(bits, live, start, bytes)
    ensures start + 2 * word !in live
    ensures Books(word, bits, memory[start + word := UNALIGNED_ALLOCATION][start := bytes],
                  live[start + 2 * word := Block(start, bytes, false)], Plus(bits, Total(live), bytes))
  {
    var after := memory[start + word := UNALIGNED_ALLOCATION][start := bytes];
    UnalignedHeader(memory, word, start, bytes);
    Added(word, bits, memory, live, start + 2 * word, Block(start, bytes, false), after);
  }

  lemma RemovedCount(word: nat, bits: nat, memory: map<nat, nat>, live: map<nat, Block>, p: nat)
    requires Books(word, bits, memory, live, Total(live)) && p in live
    ensures live[p].bytes < Pow2(bits) && Plus(bits, Total(live), Pow2(bits) - live[p].bytes) == Total(live - {p})
  {
    TotalWithout(live, p);
    CountBound(word, bits, memory, live);
  }

  lemma OthersKept(word: nat, bits: nat, memory: map<nat, nat>, live: map<nat, Block>, p: nat, memory': map<nat, nat>)
    requires word > 0 && Books(word, bits, memory, live, Total(live)) && p in live
    requires forall a :: a in memory && !Inside(a, live[p]) ==> a in memory' && memory'[a] == memory[a]
    ensures forall q :: q in live && q != p ==> HeaderOk(memory', word, q, live[q])
  {
    forall q | q in live && q != p ensures HeaderOk(memory', word, q, live[q]) {
      assert Disjoint(live[p], live[q]) && HeaderOk(memory, word, q, live[q]);
      HeaderKept(memory, memory', word, q, live[q]);
    }
  }

  /** Payload `p` is struck off. */
  lemma Removed(word: nat, bits: nat, memory: map<nat, nat>, live: map<nat, Block>, p: nat, memory': map<nat, nat>)
    requires word > 0 && Books(word, bits, memory, live, Total(live)) && p in live
    requires forall a :: a in memory && !Inside(a, live[p]) ==> a in memory' && memory'[a] == memory[a]
    ensures live[p].bytes < Pow2(bits)
    ensures Books(word, bits, memory', live - {p}, Plus(bits, Total(live), Pow2(bits) - live[p].bytes))
  {
    OthersKept(word, bits, memory, live, p, memory');
    RemovedCount(word, bits, memory, live, p);
  }

  /** No bytes are counted exactly when nothing is in use. */
  lemma LeakFree(word: nat, bits: nat, memory: map<nat, nat>, live: map<nat, Block>, count: nat)
    requires word > 0 && Books(word, bits, memory, live, count)
    ensures count == 0 <==> live == map[]
  {
    if p :| p in live {
      TotalWithout(live, p);
      assert HeaderOk(memory, word, p, live[p]);
    }
  }

  // ----- the allocator ----------------------------------------------------

  /** Malloc fails, or the block is too small for header and payload and what is written
      then lies outside, or the address of the payload. */
  datatype Allocation = Failed | Overrun | At(payload: nat)

  class Allocator {
    const word: nat                   // bytes of a size_t
    const bits: nat                   // bits of a size_t and of an address
    var memory: map<nat, nat>         // words by address
    var bytesAllocated: nat
    ghost var live: map<nat, Block>   // blocks by the address of their payload

    ghost predicate Valid()
      reads this
    {
      word > 0 && Books(word, bits, memory, live, bytesAllocated)
    }

    constructor (word: nat, bits: nat)
      requires word > 0
      ensures Valid() && live == map[] && this.word == word && this.bits == bits
    {
      this.word, this.bits := word, bits;
      memory, bytesAllocated, live := map[], 0, map[];
    }

    /** The three words before payload `p` are its block's size and start and the marker, and
        nothing else has been written. */
    ghost predicate Marked(before: map<nat, nat>, start: nat, bytes: nat, p: nat)
      reads this
    {
      p >= 3 * word && memory == before[p - word := 0x99AABB11][p - 2 * word := start][p - 3 * word := bytes]
    }

    /** embb_alloc_aligned with alignment 2^k; `base` is what malloc returns for the size
        that is requested. An address has at least as many values as six words have bytes. */
    method AllocAligned(k: nat, size: nat, base: Option<nat>) returns (r: Allocation)
      requires 6 * word <= Pow2(bits)
      requires Valid() && k < bits && Pow2(k) % word == 0 && size < Pow2(bits)
      requires base.Some? ==> Fresh(bits, live, base.value, Requested(bits, word, Pow2(k), size))
      modifies this
      ensures Valid()
      ensures r.Failed? <==> base.None?
      ensures !r.At? ==> live == old(live) && memory == old(memory)
      ensures base.Some? ==> forall x: nat :: FirstAligned(base.value, word, Pow2(k), x) ==>
                (r.At? <==> x + size <= base.value + Requested(bits, word, Pow2(k), size))
      ensures r.At? ==> FirstAligned(base.value, word, Pow2(k), r.payload) && r.payload !in old(live)
      ensures r.At? ==> r.payload % word == 0
      ensures r.At? ==>
                live == old(live)[r.payload := Block(base.value, Requested(bits, word, Pow2(k), size), true)]
      ensures r.At? ==> Marked(old(memory), base.value, Requested(bits, word, Pow2(k), size), r.payload)
    {
      if base.None? {
        return Failed;
      }
      var start, alignment := base.value, Pow2(k);
      forall x: nat | FirstAligned(start, word, alignment, x)
        ensures x + size <= start + Requested(bits, word, alignment, size) <==>
                  Representable(bits, word, alignment, size)
      {
        FitsIff(bits, word, k, size, start, x);
      }
      if !Representable(bits, word, alignment, size) {
        return Overrun;
      }
      var x := Entered(k, size, start);
      r := At(x);
    }

    /** The block is large enough: the payload is aligned and the header written. */
    method Entered(k: nat, size: nat, start: nat) returns (x: nat)
      requires Valid() && k < bits && Pow2(k) % word == 0 && Representable(bits, word, Pow2(k), size)
      requires Fresh(bits, live, start, Requested(bits, word, Pow2(k), size))
      modifies this
      ensures Valid() && FirstAligned(start, word, Pow2(k), x) && x !in old(live) && x % word == 0
      ensures live == old(live)[x := Block(start, Requested(bits, word, Pow2(k), size), true)]
      ensures Marked(old(memory), start, Requested(bits, word, Pow2(k), size), x)
    {
      var alignment := Pow2(k);
      var bytes := Requested(bits, word, alignment, size);
      RequestedExact(bits, word, alignment, size);
      CellRoom(word, alignment, size);
      x := AlignedAddress(start, word, bits, k);
      PayloadFits(start, word, alignment, size, x);
      assert start + bytes - x >= size;
      assert x % alignment == 0;
      assert x - 3 * word >= start;
      MultipleOfMultiple(x, alignment, word);
      ghost var was := memory;
      memory := memory[x - word := ALIGNED_ALLOCATION];
      memory := memory[x - 2 * word := start];
      memory := memory[x - 3 * word := bytes];
      Added(word, bits, was, live, x, Block(start, bytes, true), memory);
      bytesAllocated := Plus(bits, bytesAllocated, bytes);
      live := live[x := Block(start, bytes, true)];
    }

    /** Invalidates the marker of a payload and discounts its block. */
    method Release(p: nat, bytes: nat)
      requires Valid() && p in live && bytes == live[p].bytes && p >= word
      modifies this
      ensures Valid() && live == old(live) - {p} && memory == old(memory)[p - word := INVALID_ALLOCATION]
    {
      MarkerInside(memory, word, p, live[p]);
      Removed(word, bits, memory, live, p, memory[p - word := INVALID_ALLOCATION]);
      memory := memory[p - word := INVALID_ALLOCATION];
      bytesAllocated := Plus(bits, bytesAllocated, Pow2(bits) - bytes);
      live := live - {p};
    }

    /** embb_free_aligned; the result is what is passed to free, none if the assertion
        about the kind of the block fails. */
    method FreeAligned(p: nat) returns (base: Option<nat>)
      requires Valid() && p in live
      modifies this
      ensures Valid()
      ensures base == if old(live)[p].aligned then Some(old(live)[p].base) else None
      ensures live == if old(live)[p].aligned then old(live) - {p} else old(live)
      ensures base.Some? ==> p >= word && memory == old(memory)[p - word := 0x91919191]
      ensures base.None? ==> memory == old(memory)
    {
      assert HeaderOk(memory, word, p, live[p]);
      if memory[p - word] != ALIGNED_ALLOCATION {
        return None;
      }
      Release(p, memory[p - 3 * word]);
      base := Some(memory[p - 2 * word]);
    }

    /** The first two words of the block are its size and the marker. */
    ghost predicate PlainMarked(before: map<nat, nat>, start: nat, bytes: nat)
      reads this
    {
      memory == before[start + word := 0x11AABB99][start := bytes]
    }

    /** embb_alloc */
    method Alloc(size: nat, base: Option<nat>) returns (r: Allocation)
      requires Valid() && size < Pow2(bits)
      requires base.Some? ==> Fresh(bits, live, base.value, PlainRequested(bits, word, size))
      modifies this
      ensures Valid()
      ensures r.Failed? <==> base.None?
      ensures !r.At? ==> live == old(live) && memory == old(memory)
      ensures base.Some? ==>
                (r.At? <==> base.value + 2 * word + size <= base.value + PlainRequested(bits, word, size))
      ensures r.At? ==> r.payload == base.value + 2 * word && r.payload !in old(live)
      ensures r.At? ==> live == old(live)[r.payload := Block(base.value, 2 * word + size, false)]
      ensures r.At? ==> PlainMarked(old(memory), base.value, 2 * word + size)
    {
      if base.None? {
        return Failed;
      }
      var bytes := PlainRequested(bits, word, size);
      PlainFitsIff(bits, word, size, base.value);
      if bytes < 2 * word + size {
        return Overrun;
      }
      r := EnterPlain(bytes, base.value);
    }

    /** The block is large enough: the header is written. */
    method EnterPlain(bytes: nat, start: nat) returns (r: Allocation)
      requires Valid() && 2 * word <= bytes && Fresh(bits, live, start, bytes)
      modifies this
      ensures Valid() && r == At(start + 2 * word) && r.payload !in old(live)
      ensures live == old(live)[r.payload := Block(start, bytes, false)]
      ensures PlainMarked(old(memory), start, bytes)
    {
      PlainAdded(word, bits, memory, live, start, bytes);
      memory := memory[start + word := UNALIGNED_ALLOCATION];
      memory := memory[start := bytes];
      bytesAllocated := Plus(bits, bytesAllocated, bytes);
      live := live[start + 2 * word := Block(start, bytes, false)];
      r := At(start + 2 * word);
    }

    /** embb_free */
    method Free(p: nat) returns (base: Option<nat>)
      requires Valid() && p in live
      modifies this
      ensures Valid()
      ensures base == if old(live)[p].aligned then None else Some(old(live)[p].base)
      ensures live == if old(live)[p].aligned then old(live) else old(live) - {p}
      ensures base.Some? ==> p >= word && memory == old(memory)[p - word := 0x91919191]
      ensures base.None? ==> memory == old(memory)
    {
      assert HeaderOk(memory, word, p, live[p]);
      if memory[p - word] != UNALIGNED_ALLOCATION {
        return None;
      }
      Release(p, memory[p - 2 * word]);
      base := Some(p - 2 * word);
    }

    /** A user writes an aligned word of a payload. */
    method Write(p: nat, a: nat, value: nat)
      requires Valid() && p in live && a % word == 0 && p <= a && a + word <= live[p].base + live[p].bytes
      modifies this`memory
      ensures Valid() && memory == old(memory)[a := value]
    {
      PayloadWritten(memory, word, p, live[p], a, value);
      OthersKept(word, bits, memory, live, p, memory[a := value]);
      memory := memory[a := value];
    }
  }

  lemma CellRoom(word: nat, alignment: nat, size: nat)
    requires word > 0 && alignment > 0
    ensures alignment < BlockSize(word, alignment, size)
  {
    assert (Cells(alignment, size) + 1) * alignment >= alignment;
  }
}
