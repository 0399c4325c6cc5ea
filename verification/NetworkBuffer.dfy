/** Serialisation buffers of the network plugin. Integers are copied in the byte
    order of the machine, taken to be little-endian and the same on all nodes. */
module NetworkBuffer {

  type Byte = b: int | 0 <= b < 256

  predicate IsInt32(v: int) {
    -0x8000_0000 <= v < 0x8000_0000
  }

  function Int32Bytes(v: int): (bytes: seq<Byte>)
    requires IsInt32(v)
    ensures |bytes| == 4
  {
    var u := if v < 0 then v + 0x1_0000_0000 else v;
    [u % 256, u / 256 % 256, u / 65536 % 256, u / 16777216]
  }

  function Unsigned(b0: int, b1: int, b2: int, b3: int): int {
    b0 + 256 * b1 + 65536 * b2 + 16777216 * b3
  }

  function BytesInt32(bytes: seq<Byte>): (v: int)
    requires |bytes| == 4
    ensures IsInt32(v)
  {
    var u := Unsigned(bytes[0], bytes[1], bytes[2], bytes[3]);
    if u < 0x8000_0000 then u else u - 0x1_0000_0000
  }

  lemma Digits(b0: int, b1: int, b2: int, b3: int)
    requires 0 <= b0 < 256 && 0 <= b1 < 256 && 0 <= b2 < 256 && 0 <= b3 < 256
    ensures var u := Unsigned(b0, b1, b2, b3);
            u % 256 == b0 && u / 256 % 256 == b1 && u / 65536 % 256 == b2 && u / 16777216 == b3
  {
    var u := Unsigned(b0, b1, b2, b3);
    assert u / 256 == b1 + 256 * b2 + 65536 * b3;
    assert u / 65536 == b2 + 256 * b3;
  }

  lemma Recompose(u: nat)
    requires u < 0x1_0000_0000
    ensures Unsigned(u % 256, u / 256 % 256, u / 65536 % 256, u / 16777216) == u
  {
    var q := u / 256;
    assert u / 65536 == q / 256 && u / 16777216 == q / 65536;
    assert q == q % 256 + 256 * (q / 256);
    var r := q / 256;
    assert q / 65536 == r / 256;
  }

  /** Reading an integer back yields what was written, and the bytes are determined
      by the integer. */
  lemma Int32RoundTrip(v: int, bytes: seq<Byte>)
    requires IsInt32(v) && |bytes| == 4
    ensures BytesInt32(Int32Bytes(v)) == v
    ensures Int32Bytes(BytesInt32(bytes)) == bytes
  {
    Recompose(if v < 0 then v + 0x1_0000_0000 else v);
    Digits(bytes[0], bytes[1], bytes[2], bytes[3]);
  }

  /** The least significant byte comes first, and negative integers are in two's complement. */
  lemma LittleEndian(v: int)
    requires IsInt32(v)
    ensures var bytes := Int32Bytes(v);
            var b0: int, b1: int, b2: int, b3: int := bytes[0], bytes[1], bytes[2], bytes[3];
            b0 + 0x100 * b1 + 0x1_0000 * b2 + 0x100_0000 * b3 == if v < 0 then v + 0x1_0000_0000 else v
  {
    Recompose(if v < 0 then v + 0x1_0000_0000 else v);
  }

  /** Copies a chunk into an array. */
  method Copy(data: array<Byte>, at: nat, chunk: seq<Byte>)
    requires at + |chunk| <= data.Length
    modifies data
    ensures data[..at + |chunk|] == old(data[..at]) + chunk
  {
    for i := 0 to |chunk|
      invariant data[..at + i] == old(data[..at]) + chunk[..i]
    {
      data[at + i] := chunk[i];
    }
  }

  class Buffer {
    var position: nat
    var size: nat
    const data: array<Byte>

    ghost predicate Valid()
      reads this, data
    {
      position <= size <= data.Length
    }

    /** Nothing has been written or read. */
    ghost predicate Empty()
      reads this
    {
      position == 0 && size == 0
    }

    /** What has been written, and what of it has not been read. */
    ghost function Written(): seq<Byte>
      requires Valid()
      reads this, data
    {
      data[..size]
    }

    ghost function Unread(): seq<Byte>
      requires Valid()
      reads this, data
    {
      data[position..size]
    }

    constructor (capacity: nat)
      ensures Valid() && Empty() && data.Length == capacity && fresh(data)
    {
      data := new Byte[capacity](_ => 0);
      position, size := 0, 0;
    }

    method Clear()
      modifies this
      ensures Valid() && Empty()
    {
      position, size := 0, 0;
    }

    /** Appends raw data if there is room for all of it; yields the number of bytes
        appended. */
    method PushRaw(raw: seq<Byte>) returns (count: int)
      requires Valid()
      modifies this`size, data
      ensures Valid()
      ensures count == if old(size) + |raw| > data.Length then 0 else |raw|
      ensures Written() == if old(size) + |raw| > data.Length then old(Written()) else old(Written()) + raw
    {
      if size + |raw| > data.Length {
        return 0;
      }
      Copy(data, size, raw);
      size := size + |raw|;
      assert data[..size] == old(data[..size]) + raw;
      count := |raw|;
    }

    method PushInt8(value: Byte) returns (count: int)
      requires Valid()
      modifies this`size, data
      ensures Valid()
      ensures count == if old(size) + 1 > data.Length then 0 else 1
      ensures Written() == if old(size) + 1 > data.Length then old(Written()) else old(Written()) + [value]
    {
      count := PushRaw([value]);
    }

    method PushInt32(value: int) returns (count: int)
      requires Valid() && IsInt32(value)
      modifies this`size, data
      ensures Valid()
      ensures count == if old(size) + 4 > data.Length then 0 else 4
      ensures Written() == if old(size) + 4 > data.Length then old(Written()) else old(Written()) + Int32Bytes(value)
    {
      count := PushRaw(Int32Bytes(value));
    }

    /** Takes `count` bytes off the front if that many are left. */
    method PopRaw(count: nat) returns (done: int, raw: seq<Byte>)
      requires Valid()
      modifies this`position
      ensures Valid() && Written() == old(Written())
      ensures done == if |old(Unread())| < count then 0 else count
      ensures |old(Unread())| < count ==> raw == [] && Unread() == old(Unread())
      ensures |old(Unread())| >= count ==> raw == old(Unread())[..count] && Unread() == old(Unread())[count..]
    {
      if position + count > size {
        return 0, [];
      }
      raw := data[position..position + count];
      position := position + count;
      done := count;
    }

    method PopInt8() returns (done: int, value: Byte)
      requires Valid()
      modifies this`position
      ensures Valid() && Written() == old(Written())
      ensures done == if |old(Unread())| < 1 then 0 else 1
      ensures |old(Unread())| < 1 ==> value == 0 && Unread() == old(Unread())
      ensures |old(Unread())| >= 1 ==> value == old(Unread())[0] && Unread() == old(Unread())[1..]
    {
      var raw;
      done, raw := PopRaw(1);
      value := if done == 1 then raw[0] else 0;
    }

    method PopInt32() returns (done: int, value: int)
      requires Valid()
      modifies this`position
      ensures Valid() && Written() == old(Written())
      ensures done == if |old(Unread())| < 4 then 0 else 4
      ensures |old(Unread())| < 4 ==> value == 0 && Unread() == old(Unread())
      ensures |old(Unread())| >= 4 ==> value == BytesInt32(old(Unread())[..4]) && Unread() == old(Unread())[4..]
    {
      var raw;
      done, raw := PopRaw(4);
      value := if done == 4 then BytesInt32(raw) else 0;
    }
  }
}
