/** The wire protocol of the network plugin: message layouts, sending and receiving
    over a stream that delivers bytes in order but in chunks of any size. */
module Wire {
  import opened Common
  import opened NetworkBuffer

  const START_TASK: Byte := 0
  const RETURN_RESULT: Byte := 1

  datatype Message =
    | StartTask(domain: int, job: int, priority: int, id: int, tag: int, resultSize: int, arguments: seq<Byte>)
    | ReturnResult(id: int, tag: int, status: int, result: seq<Byte>)

  function Payload(m: Message): seq<Byte> {
    if m.StartTask? then m.arguments else m.result
  }

  /** The integer fields of a message in the order of transmission, the length of the
      payload last. */
  function Fields(m: Message): seq<int> {
    match m
    case StartTask(domain, job, priority, id, tag, resultSize, arguments) =>
      [domain, job, priority, id, tag, resultSize, |arguments|]
    case ReturnResult(id, tag, status, result) => [id, tag, status, |result|]
  }

  predicate AllInt32(xs: seq<int>) {
    forall i :: 0 <= i < |xs| ==> IsInt32(xs[i])
  }

  function Ints(xs: seq<int>): (bytes: seq<Byte>)
    requires AllInt32(xs)
    ensures |bytes| == 4 * |xs|
  {
    if xs == [] then [] else Ints(xs[..|xs| - 1]) + Int32Bytes(xs[|xs| - 1])
  }

  lemma {:induction false} IntsAt(xs: seq<int>, k: nat)
    requires AllInt32(xs) && k < |xs|
    ensures Ints(xs)[4 * k..4 * k + 4] == Int32Bytes(xs[k])
  {
    if k < |xs| - 1 {
      IntsAt(xs[..|xs| - 1], k);
      assert Ints(xs)[4 * k..4 * k + 4] == Ints(xs[..|xs| - 1])[4 * k..4 * k + 4];
    }
  }

  predicate Encodable(m: Message) {
    AllInt32(Fields(m))
  }

  /** The header that follows the operation byte: 28 or 16 bytes. */
  function Header(m: Message): (bytes: seq<Byte>)
    requires Encodable(m)
    ensures |bytes| == if m.StartTask? then 28 else 16
  {
    Ints(Fields(m))
  }

  function Operation(m: Message): Byte {
    if m.StartTask? then START_TASK else RETURN_RESULT
  }

  function Encode(m: Message): seq<Byte>
    requires Encodable(m)
  {
    [Operation(m)] + Header(m) + Payload(m)
  }

  /** The four bytes of `v` are in this place. */
  predicate Holds(code: seq<Byte>, place: nat, v: int) {
    place + 4 <= |code| && IsInt32(v) && code[place..place + 4] == Int32Bytes(v)
  }

  lemma FieldAt(m: Message, k: nat)
    requires Encodable(m) && k < |Fields(m)|
    ensures Holds(Encode(m), 4 * k + 1, Fields(m)[k])
  {
    IntsAt(Fields(m), k);
    assert Encode(m)[1..] == Header(m) + Payload(m);
    assert Encode(m)[4 * k + 1..4 * k + 5] == Header(m)[4 * k..4 * k + 4];
  }

  /** A start message on the wire, place by place. */
  lemma StartLayout(m: Message)
    requires Encodable(m) && m.StartTask?
    ensures var code := Encode(m);
            && |code| == 29 + |m.arguments| && code[0] == 0 && code[29..] == m.arguments
            && Holds(code, 1, m.domain) && Holds(code, 5, m.job) && Holds(code, 9, m.priority)
            && Holds(code, 13, m.id) && Holds(code, 17, m.tag)
            && Holds(code, 21, m.resultSize) && Holds(code, 25, |m.arguments|)
  {
    FieldAt(m, 0);
    FieldAt(m, 1);
    FieldAt(m, 2);
    FieldAt(m, 3);
    FieldAt(m, 4);
    FieldAt(m, 5);
    FieldAt(m, 6);
  }

  /** A result message on the wire, place by place. */
  lemma ResultLayout(m: Message)
    requires Encodable(m) && m.ReturnResult?
    ensures var code := Encode(m);
            && |code| == 17 + |m.result| && code[0] == 1 && code[17..] == m.result
            && Holds(code, 1, m.id) && Holds(code, 5, m.tag) && Holds(code, 9, m.status)
            && Holds(code, 13, |m.result|)
  {
    FieldAt(m, 0);
    FieldAt(m, 1);
    FieldAt(m, 2);
    FieldAt(m, 3);
  }

  predicate AllEncodable(ms: seq<Message>) {
    forall i :: 0 <= i < |ms| ==> Encodable(ms[i])
  }

  /** The encodings of a list of messages. */
  function Codes(ms: seq<Message>): (codes: seq<seq<Byte>>)
    requires AllEncodable(ms)
    ensures |codes| == |ms| && forall i :: 0 <= i < |ms| ==> codes[i] == Encode(ms[i])
  {
    seq(|ms|, i requires 0 <= i < |ms| => Encode(ms[i]))
  }

  function Flatten(codes: seq<seq<Byte>>): seq<Byte> {
    if codes == [] then [] else codes[0] + Flatten(codes[1..])
  }

  function EncodeAll(ms: seq<Message>): seq<Byte>
    requires AllEncodable(ms)
  {
    Flatten(Codes(ms))
  }

  predicate Fits(m: Message, capacity: nat) {
    Encodable(m) && |Encode(m)| <= capacity
  }

  // ----- the stream -------------------------------------------------------

  /** A connection: the bytes sent and not yet received. Send and receive transfer as
      many bytes as the network likes; on a reliable one, at least one if possible. */
  class Channel {
    var bytes: seq<Byte>
    const reliable: bool

    constructor (reliable: bool)
      ensures bytes == [] && this.reliable == reliable
    {
      bytes := [];
      this.reliable := reliable;
    }

    method Send(chunk: seq<Byte>) returns (count: int)
      modifies this
      ensures count <= |chunk| && bytes == old(bytes) + (if count > 0 then chunk[..count] else [])
      ensures reliable && |chunk| > 0 ==> count > 0
    {
      var least := if reliable && |chunk| > 0 then 1 else -1;
      count :| least <= count <= |chunk|;
      if count > 0 {
        bytes := bytes + chunk[..count];
      }
    }

    method Receive(limit: nat) returns (count: int, chunk: seq<Byte>)
      modifies this
      ensures count <= limit && count <= |old(bytes)| && |chunk| == (if count > 0 then count else 0)
      ensures old(bytes) == chunk + bytes
      ensures reliable && limit > 0 && old(bytes) != [] ==> count > 0
    {
      var most := if limit < |bytes| then limit else |bytes|;
      var least := if reliable && most > 0 then 1 else -1;
      count :| least <= count <= most;
      chunk := [];
      if count > 0 {
        chunk := bytes[..count];
        bytes := bytes[count..];
      }
    }
  }

  lemma NextChunk(data: seq<Byte>, from: nat, to: nat, count: nat)
    requires from + count <= to <= |data|
    ensures data[..from] + data[from..to][..count] == data[..from + count]
  {
  }

  /** Sends until everything is sent or an error occurs; zero means an error. */
  method SendBuffer(channel: Channel, buffer: Buffer) returns (result: int, ghost sent: nat)
    requires buffer.Valid()
    modifies channel
    ensures sent <= buffer.size && channel.bytes == old(channel.bytes) + buffer.Written()[..sent]
    ensures result == if sent == buffer.size then buffer.size else 0
    ensures channel.reliable ==> sent == buffer.size && channel.bytes == old(channel.bytes) + buffer.Written()
  {
    var cnt := 0;
    var done := channel.Send(buffer.data[..buffer.size]);
    while done > 0
      invariant 0 <= cnt && cnt + (if done > 0 then done else 0) <= buffer.size
      invariant channel.bytes == old(channel.bytes) + buffer.data[..cnt + (if done > 0 then done else 0)]
      invariant channel.reliable && cnt < buffer.size ==> done > 0
      decreases buffer.size - cnt
    {
      cnt := cnt + done;
      if cnt == buffer.size {
        break;
      }
      done := channel.Send(buffer.data[cnt..buffer.size]);
      if done > 0 { NextChunk(buffer.data[..], cnt, buffer.size, done); }
    }
    if cnt == buffer.size {
      result := buffer.size;
    } else {
      result := 0;
    }
    sent := cnt;
    assert buffer.Written()[..cnt] == buffer.data[..cnt];
    assert buffer.Written()[..buffer.size] == buffer.Written();
  }

  /** Receives exactly `size` bytes into the cleared buffer; zero means that they did
      not fit, that an error occurred, or that nothing was asked for. */
  method ReceiveSized(channel: Channel, buffer: Buffer, size: int) returns (result: int)
    requires buffer.Valid() && buffer.Empty()
    modifies channel, buffer`size, buffer.data
    ensures buffer.Valid() && buffer.position == 0
    ensures result == 0 || result == size > 0
    ensures result == size >= 0 ==> old(channel.bytes) == buffer.Written() + channel.bytes && |buffer.Written()| == size
    ensures channel.reliable && 0 <= size <= buffer.data.Length && size <= |old(channel.bytes)| ==> result == size
  {
    if buffer.data.Length < size {
      return 0;
    }
    var err := 0;
    if 0 < size {
      var cnt, chunk := 0, [];
      err, chunk := channel.Receive(size);
      while err > 0
        invariant buffer.size == 0 && buffer.position == 0
        invariant 0 <= cnt < size && err <= size - cnt && |chunk| == (if err > 0 then err else 0)
        invariant old(channel.bytes) == buffer.data[..cnt] + chunk + channel.bytes
        invariant channel.reliable && size <= |old(channel.bytes)| ==> err > 0
        decreases size - cnt
      {
        Copy(buffer.data, cnt, chunk);
        cnt := cnt + err;
        if cnt == size {
          break;
        }
        err, chunk := channel.Receive(size - cnt);
      }
      if err > 0 {
        err := cnt;
      }
    }
    if err != size {
      return 0;
    }
    buffer.size := size;
    result := buffer.size;
  }

  // ----- composing --------------------------------------------------------

  /** The buffer holds the operation byte and the first `k` of the integer fields. */
  ghost predicate Composed(buffer: Buffer, operation: Byte, fields: seq<int>, k: nat)
    requires k <= |fields| && AllInt32(fields)
    reads buffer, buffer.data
  {
    buffer.Valid() && buffer.Written() == [operation] + Ints(fields[..k])
  }

  /** Writes the next integer field, which the caller asserts to have been written. */
  method PushField(buffer: Buffer, value: int, operation: Byte, ghost fields: seq<int>, ghost k: nat)
    requires AllInt32(fields) && k < |fields| && value == fields[k]
    requires Composed(buffer, operation, fields, k) && 5 + 4 * k <= buffer.data.Length
    modifies buffer`size, buffer.data
    ensures Composed(buffer, operation, fields, k + 1)
  {
    assert |buffer.Written()| == buffer.size;
    var err := buffer.PushInt32(value);
    assert err == 4;
    assert fields[..k + 1][..k] == fields[..k];
  }

  /** Writes what is to be started. */
  method ComposeJob(buffer: Buffer, m: Message)
    requires m.StartTask? && Encodable(m) && Composed(buffer, START_TASK, Fields(m), 0) && 29 <= buffer.data.Length
    modifies buffer`size, buffer.data
    ensures Composed(buffer, START_TASK, Fields(m), 3)
  {
    PushField(buffer, m.domain, START_TASK, Fields(m), 0);
    PushField(buffer, m.job, START_TASK, Fields(m), 1);
    PushField(buffer, m.priority, START_TASK, Fields(m), 2);
  }

  /** Writes who asks for it, and the sizes of result and arguments. */
  method ComposeTask(buffer: Buffer, m: Message)
    requires m.StartTask? && Encodable(m) && Composed(buffer, START_TASK, Fields(m), 3) && 29 <= buffer.data.Length
    modifies buffer`size, buffer.data
    ensures Composed(buffer, START_TASK, Fields(m), 7)
  {
    PushField(buffer, m.id, START_TASK, Fields(m), 3);
    PushField(buffer, m.tag, START_TASK, Fields(m), 4);
    PushField(buffer, m.resultSize, START_TASK, Fields(m), 5);
    PushField(buffer, |m.arguments|, START_TASK, Fields(m), 6);
  }

  /** Writes the header of a start message after the operation byte. */
  method ComposeStart(buffer: Buffer, m: Message)
    requires buffer.Valid() && m.StartTask? && Encodable(m)
    requires buffer.Written() == [START_TASK] && 29 <= buffer.data.Length
    modifies buffer`size, buffer.data
    ensures buffer.Valid() && buffer.Written() == [START_TASK] + Header(m)
  {
    assert Composed(buffer, START_TASK, Fields(m), 0);
    ComposeJob(buffer, m);
    ComposeTask(buffer, m);
    assert Fields(m)[..7] == Fields(m);
  }

  /** Writes the header of a result message after the operation byte. */
  method ComposeReturn(buffer: Buffer, m: Message)
    requires buffer.Valid() && m.ReturnResult? && Encodable(m)
    requires buffer.Written() == [RETURN_RESULT] && 17 <= buffer.data.Length
    modifies buffer`size, buffer.data
    ensures buffer.Valid() && buffer.Written() == [RETURN_RESULT] + Header(m)
  {
    ghost var fields := Fields(m);
    assert Composed(buffer, RETURN_RESULT, fields, 0);
    PushField(buffer, m.id, RETURN_RESULT, fields, 0);
    PushField(buffer, m.tag, RETURN_RESULT, fields, 1);
    PushField(buffer, m.status, RETURN_RESULT, fields, 2);
    PushField(buffer, |m.result|, RETURN_RESULT, fields, 3);
    assert fields[..4] == fields;
  }

  /** Writes a message into the send buffer, replacing what was there. */
  method Compose(buffer: Buffer, m: Message)
    requires buffer.Valid() && Fits(m, buffer.data.Length)
    modifies buffer, buffer.data
    ensures buffer.Valid() && buffer.Written() == Encode(m)
  {
    buffer.Clear();
    var err := buffer.PushInt8(Operation(m));
    assert err == 1 && buffer.Written() == [Operation(m)];
    assert |buffer.Written()| == buffer.size;
    if m.StartTask? { ComposeStart(buffer, m); } else { ComposeReturn(buffer, m); }
    assert |buffer.Written()| == buffer.size;
    err := buffer.PushRaw(Payload(m));
    assert err == |Payload(m)|;
  }

  // ----- receiving --------------------------------------------------------

  function HeaderSize(operation: Byte): nat {
    if operation == START_TASK then 28 else 16
  }

  /** What the receiver makes of a header: the message without its payload, and the
      announced length of the payload. */
  function ParseHeader(operation: Byte, bytes: seq<Byte>): (Message, int)
    requires |bytes| == HeaderSize(operation)
  {
    if operation == START_TASK then
      (StartTask(BytesInt32(bytes[0..4]), BytesInt32(bytes[4..8]), BytesInt32(bytes[8..12]), BytesInt32(bytes[12..16]),
                 BytesInt32(bytes[16..20]), BytesInt32(bytes[20..24]), []), BytesInt32(bytes[24..28]))
    else
      (ReturnResult(BytesInt32(bytes[0..4]), BytesInt32(bytes[4..8]), BytesInt32(bytes[8..12]), []),
       BytesInt32(bytes[12..16]))
  }

  function WithPayload(m: Message, payload: seq<Byte>): Message {
    if m.StartTask? then m.(arguments := payload) else m.(result := payload)
  }

  /** The receiver reads from a header exactly the fields that were sent. */
  lemma HeaderRoundTrip(m: Message)
    requires Encodable(m)
    ensures var (fields, length) := ParseHeader(Operation(m), Header(m));
            WithPayload(fields, Payload(m)) == m && length == |Payload(m)|
  {
    var xs := Fields(m);
    var h := Header(m);
    forall k | 0 <= k < |xs| ensures BytesInt32(h[4 * k..4 * k + 4]) == xs[k] {
      IntsAt(xs, k);
      Int32RoundTrip(xs[k], h[4 * k..4 * k + 4]);
    }
    assert xs[0] == BytesInt32(h[4 * 0..4 * 0 + 4]) && xs[1] == BytesInt32(h[4 * 1..4 * 1 + 4]);
    assert xs[2] == BytesInt32(h[4 * 2..4 * 2 + 4]) && xs[3] == BytesInt32(h[4 * 3..4 * 3 + 4]);
    if m.StartTask? {
      assert xs[4] == BytesInt32(h[4 * 4..4 * 4 + 4]) && xs[5] == BytesInt32(h[4 * 5..4 * 5 + 4]);
      assert xs[6] == BytesInt32(h[4 * 6..4 * 6 + 4]);
    }
  }

  /** Takes the fields of a header off the front of the buffer. */
  method ReadHeader(buffer: Buffer, operation: Byte) returns (fields: Message, length: int)
    requires buffer.Valid() && buffer.position == 0
    requires |buffer.Written()| == HeaderSize(operation)
    modifies buffer`position
    ensures buffer.Valid() && (fields, length) == ParseHeader(operation, buffer.Written())
    ensures fields.StartTask? <==> operation == START_TASK
  {
    ghost var bytes := buffer.Written();
    assert buffer.Unread() == bytes;
    if operation == START_TASK {
      var a := PopField(buffer);
      var b := PopField(buffer);
      var c := PopField(buffer);
      var d := PopField(buffer);
      var e := PopField(buffer);
      var f := PopField(buffer);
      length := PopField(buffer);
      fields := StartTask(a, b, c, d, e, f, []);
    } else {
      var a := PopField(buffer);
      var b := PopField(buffer);
      var c := PopField(buffer);
      length := PopField(buffer);
      fields := ReturnResult(a, b, c, []);
    }
  }

  method PopField(buffer: Buffer) returns (value: int)
    requires buffer.Valid() && buffer.position + 4 <= buffer.size
    modifies buffer`position
    ensures buffer.Valid() && buffer.Written() == old(buffer.Written()) && buffer.position == old(buffer.position) + 4
    ensures value == BytesInt32(buffer.Written()[old(buffer.position)..old(buffer.position) + 4])
  {
    assert buffer.Unread()[..4] == buffer.Written()[buffer.position..buffer.position + 4];
    var err;
    err, value := buffer.PopInt32();
    assert err == 4;
    assert |buffer.Unread()| == buffer.size - buffer.position;
  }

  /** The reference decoder: the first message of a stream and the rest of it. */
  function Decode(bytes: seq<Byte>, capacity: nat): Option<(Message, seq<Byte>)> {
    if |bytes| == 0 || (bytes[0] != START_TASK && bytes[0] != RETURN_RESULT) then None else
      var start := 1 + HeaderSize(bytes[0]);
      if |bytes| < start then None else
        var (fields, length) := ParseHeader(bytes[0], bytes[1..start]);
        if length < 0 || length > capacity || |bytes| < start + length then None
        else Some((WithPayload(fields, bytes[start..start + length]), bytes[start + length..]))
  }

  /** Decoding undoes encoding, whatever follows. */
  lemma DecodeEncode(m: Message, rest: seq<Byte>, capacity: nat)
    requires Fits(m, capacity)
    ensures Decode(Encode(m) + rest, capacity) == Some((m, rest))
  {
    var bytes := Encode(m) + rest;
    var start := 1 + |Header(m)|;
    assert bytes[1..start] == Header(m);
    assert bytes[start..start + |Payload(m)|] == Payload(m);
    assert bytes[start + |Payload(m)|..] == rest;
    HeaderRoundTrip(m);
  }

  predicate Known(operation: Byte) {
    operation == START_TASK || operation == RETURN_RESULT
  }

  /** The stream starts with a known operation and a whole header. */
  predicate HasHeader(bytes: seq<Byte>) {
    |bytes| > 0 && Known(bytes[0]) && |bytes| >= 1 + HeaderSize(bytes[0])
  }

  lemma DecodeNeeds(bytes: seq<Byte>, capacity: nat)
    requires Decode(bytes, capacity).Some?
    ensures HasHeader(bytes)
  {
  }

  // ----- what a turn of the receive loop delivers -------------------------

  /** What memory holds that the code has not written: the fields of a message, the length
      of its payload, and bytes. */
  datatype Memory = Memory(start: Message, answer: Message, length: int, bytes: seq<Byte>) {
    /** The priority is initialised. */
    predicate Valid() {
      start.StartTask? && start.priority == 0 && answer.ReturnResult?
    }

    function Of(operation: Byte): (m: Message)
      requires Valid()
      ensures m.StartTask? <==> operation == START_TASK
    {
      if operation == START_TASK then start else answer
    }

    function Bytes(n: nat): (r: seq<Byte>)
      ensures |r| == n
    {
      seq(n, i requires 0 <= i < n => if i < |bytes| then bytes[i] else 0)
    }
  }

  /** The outcome of one turn: nothing is delivered, or a message, or a failed assertion
      stops the program, or a copy of negative length leaves what C defines. */
  datatype Outcome = Nothing | Delivered(message: Message) | Stopped | Undefined

  function HeaderFields(operation: Byte, header: Option<seq<Byte>>, memory: Memory): (Message, int)
    requires memory.Valid() && (header.Some? ==> |header.value| == HeaderSize(operation))
  {
    if header.Some? then ParseHeader(operation, header.value) else (memory.Of(operation), memory.length)
  }

  /** What becomes of a message of which header and payload were received or not, in a
      build with assertions and in one without. */
  function Delivery(operation: Byte, header: Option<seq<Byte>>, payload: Option<seq<Byte>>, memory: Memory,
                    asserts: bool): Outcome
    requires memory.Valid() && (header.Some? ==> |header.value| == HeaderSize(operation))
  {
    var (fields, length) := HeaderFields(operation, header, memory);
    if asserts && (header.None? || payload.None?) then Stopped
    else if payload.Some? then Delivered(WithPayload(fields, payload.value))
    else if length < 0 then Undefined
    else Delivered(WithPayload(fields, memory.Bytes(length)))
  }

  /** Header and payload, as far as they were received, are those at the front of the
      stream after the operation byte; a payload without bytes cannot be missed. */
  predicate TakenFrom(bytes: seq<Byte>, header: Option<seq<Byte>>, payload: Option<seq<Byte>>) {
    header.Some? ==>
      && HasHeader(bytes) && header.value == bytes[1..1 + HeaderSize(bytes[0])]
      && var length := ParseHeader(bytes[0], header.value).1; var start := 1 + HeaderSize(bytes[0]);
         && (length == 0 ==> payload.Some?)
         && (payload.Some? ==> 0 <= length <= |bytes| - start && payload.value == bytes[start..start + length])
  }

  /** Memory in which the fields, or the bytes of the payload, are not those of `m`. */
  function OtherMemory(m: Message): (memory: Memory)
    ensures memory.Valid() && WithPayload(memory.Of(Operation(m)), Payload(m)) != m && memory.length == 0
    ensures Payload(m) != [] ==> memory.Bytes(|Payload(m)|) != Payload(m)
  {
    var task := if m.StartTask? then m.domain + 1 else 0;
    var answer := if m.ReturnResult? then m.id + 1 else 0;
    var byte: Byte := if Payload(m) != [] && Payload(m)[0] == 0 then 1 else 0;
    var memory := Memory(StartTask(task, 0, 0, 0, 0, 0, []), ReturnResult(answer, 0, 0, []), 0, [byte]);
    assert Payload(m) != [] ==> memory.Bytes(|Payload(m)|)[0] == byte;
    memory
  }

  lemma WithPayloadParts(fields: Message, payload: seq<Byte>, other: seq<Byte>)
    ensures Payload(WithPayload(fields, payload)) == payload
    ensures WithPayload(WithPayload(fields, payload), other) == WithPayload(fields, other)
    ensures payload != other ==> WithPayload(fields, payload) != WithPayload(fields, other)
  {
  }

  /** A receive that fails lets other messages through. */
  lemma MissedDelivers(bytes: seq<Byte>, capacity: nat, header: Option<seq<Byte>>, payload: Option<seq<Byte>>)
    returns (memory: Memory)
    requires Decode(bytes, capacity).Some? && TakenFrom(bytes, header, payload) && (header.None? || payload.None?)
    ensures memory.Valid()
    ensures Delivery(bytes[0], header, payload, memory, false) != Delivered(Decode(bytes, capacity).value.0)
  {
    var m := Decode(bytes, capacity).value.0;
    memory := OtherMemory(m);
    var (fields, length) := HeaderFields(bytes[0], header, memory);
    var got := if payload.Some? then payload.value else memory.Bytes(length);
    WithPayloadParts(fields, got, Payload(m));
    if header.Some? {
      assert m == WithPayload(fields, Payload(m)) && length == |Payload(m)|;
      WithPayloadParts(fields, Payload(m), got);
    }
  }

  /** From a stream that starts with a message, a turn without assertions delivers that
      message, whatever memory holds, if and only if header and payload were received. */
  lemma DeliveredIff(bytes: seq<Byte>, capacity: nat, header: Option<seq<Byte>>, payload: Option<seq<Byte>>)
    requires Decode(bytes, capacity).Some? && TakenFrom(bytes, header, payload)
    ensures (forall memory: Memory :: memory.Valid() ==>
               Delivery(bytes[0], header, payload, memory, false) == Delivered(Decode(bytes, capacity).value.0))
            <==> header.Some? && payload.Some?
  {
    if header.None? || payload.None? {
      var memory := MissedDelivers(bytes, capacity, header, payload);
    }
  }

  /** With assertions it delivers that message or stops. */
  lemma AssertionsStop(bytes: seq<Byte>, capacity: nat, header: Option<seq<Byte>>, payload: Option<seq<Byte>>,
                       memory: Memory)
    requires Decode(bytes, capacity).Some? && TakenFrom(bytes, header, payload) && memory.Valid()
    ensures Delivery(bytes[0], header, payload, memory, true) ==
            if header.Some? && payload.Some? then Delivered(Decode(bytes, capacity).value.0) else Stopped
  {
  }

  // ----- the receive loop -------------------------------------------------

  lemma Singleton(bytes: seq<Byte>, x: Byte)
    requires |bytes| == 1 && bytes[0] == x
    ensures bytes == [x]
  {
  }

  /** Receives the operation byte. */
  method ReceiveOperation(channel: Channel, buffer: Buffer) returns (ok: bool, operation: Byte)
    requires buffer.Valid() && buffer.data.Length >= 28
    modifies channel, buffer, buffer.data
    ensures buffer.Valid() && buffer.Empty()
    ensures ok ==> old(channel.bytes) == [operation] + channel.bytes
    ensures channel.reliable && old(channel.bytes) != [] ==> ok
  {
    buffer.Clear();
    var err := ReceiveSized(channel, buffer, 1);
    if err == 0 {
      ok, operation := false, START_TASK;
    } else {
      ghost var got := buffer.Written();
      assert buffer.Unread() == got;
      var done;
      done, operation := buffer.PopInt8();
      assert done == 1 && |got| == 1 && got[0] == operation;
      Singleton(got, operation);
      ok := true;
    }
    buffer.Clear();
  }

  /** Receives the header; without it the fields are what memory holds that has not been
      written. */
  method ReceiveHeader(channel: Channel, buffer: Buffer, operation: Byte, memory: Memory)
    returns (header: Option<seq<Byte>>, fields: Message, length: int)
    requires buffer.Valid() && buffer.Empty() && buffer.data.Length >= 28 && memory.Valid() && Known(operation)
    modifies channel, buffer, buffer.data
    ensures buffer.Valid() && buffer.Empty()
    ensures header.Some? ==>
              |header.value| == HeaderSize(operation) && old(channel.bytes) == header.value + channel.bytes
    ensures (fields, length) == HeaderFields(operation, header, memory)
    ensures channel.reliable && |old(channel.bytes)| >= HeaderSize(operation) ==> header.Some?
  {
    var size := HeaderSize(operation);
    var err := ReceiveSized(channel, buffer, size);
    if err == size {
      header := Some(buffer.data[..buffer.size]);
      fields, length := ReadHeader(buffer, operation);
    } else {
      header, fields, length := None, memory.Of(operation), memory.length;
    }
    buffer.Clear();
  }

  /** Receives the payload of the announced length. */
  method ReceivePayload(channel: Channel, buffer: Buffer, length: int) returns (payload: Option<seq<Byte>>)
    requires buffer.Valid() && buffer.Empty()
    modifies channel, buffer, buffer.data
    ensures buffer.Valid()
    ensures payload.Some? ==>
              |payload.value| == length <= buffer.data.Length && old(channel.bytes) == payload.value + channel.bytes
    ensures length == 0 ==> payload.Some?
    ensures channel.reliable && 0 <= length <= buffer.data.Length && length <= |old(channel.bytes)| ==> payload.Some?
  {
    var err := ReceiveSized(channel, buffer, length);
    payload := if err == length then Some(buffer.data[..buffer.size]) else None;
  }

  /** One turn of the receive loop: the operation byte, the header, the payload. Nothing
      is delivered without an operation byte or for an unknown operation. */
  method ReceiveMessage(channel: Channel, buffer: Buffer, memory: Memory, asserts: bool)
    returns (outcome: Outcome, operation: Option<Byte>, header: Option<seq<Byte>>, payload: Option<seq<Byte>>)
    requires buffer.Valid() && buffer.data.Length >= 28 && memory.Valid()
    modifies channel, buffer, buffer.data
    ensures buffer.Valid()
    ensures operation.Some? ==>
              old(channel.bytes) != [] && operation.value == old(channel.bytes)[0] && Known(operation.value)
    ensures operation.Some? ==> TakenFrom(old(channel.bytes), header, payload)
    ensures operation.None? ==> outcome == Nothing
    ensures operation.Some? ==> outcome == Delivery(operation.value, header, payload, memory, asserts)
    ensures operation.Some? && header.Some? && payload.Some? ==>
              Decode(old(channel.bytes), buffer.data.Length) == Some((outcome.message, channel.bytes))
    ensures channel.reliable && Decode(old(channel.bytes), buffer.data.Length).Some? ==>
              operation.Some? && header.Some? && payload.Some?
  {
    outcome, operation, header, payload := Nothing, None, None, None;
    ghost var bytes := channel.bytes;
    if Decode(bytes, buffer.data.Length).Some? { DecodeNeeds(bytes, buffer.data.Length); }
    var ok, code := ReceiveOperation(channel, buffer);
    if ok && (code == START_TASK || code == RETURN_RESULT) {
      operation := Some(code);
      var fields, length;
      header, fields, length := ReceiveHeader(channel, buffer, code, memory);
      if header.None? && asserts {
        return Stopped, operation, header, payload;
      }
      ghost var tail := channel.bytes;
      payload := ReceivePayload(channel, buffer, length);
      if header.Some? {
        TakenParts(bytes, code, header.value, tail, payload, channel.bytes);
        if payload.Some? {
          DecodedParts(bytes, code, header.value, payload.value, channel.bytes, buffer.data.Length);
        }
      }
      if payload.Some? { outcome := Delivered(WithPayload(fields, payload.value)); }
      else if asserts { outcome := Stopped; }
      else if length < 0 { outcome := Undefined; }
      else { outcome := Delivered(WithPayload(fields, memory.Bytes(length))); }
    }
  }

  /** The parts of the stream that the receives took. */
  lemma TakenParts(bytes: seq<Byte>, operation: Byte, header: seq<Byte>, tail: seq<Byte>,
                   payload: Option<seq<Byte>>, rest: seq<Byte>)
    requires Known(operation) && |header| == HeaderSize(operation) && bytes == [operation] + (header + tail)
    requires var length := ParseHeader(operation, header).1;
             (payload.Some? ==> |payload.value| == length && tail == payload.value + rest)
               && (length == 0 ==> payload.Some?)
    ensures TakenFrom(bytes, Some(header), payload)
  {
    HeaderSlices(bytes, operation, header, tail);
    if payload.Some? { PayloadSlices(bytes, 1 + |header|, payload.value, rest); }
  }

  /** What they decode to. */
  lemma DecodedParts(bytes: seq<Byte>, operation: Byte, header: seq<Byte>, payload: seq<Byte>, rest: seq<Byte>,
                     capacity: nat)
    requires Known(operation) && |header| == HeaderSize(operation)
    requires bytes == [operation] + (header + (payload + rest))
    requires |payload| == ParseHeader(operation, header).1 <= capacity
    ensures Decode(bytes, capacity) == Some((WithPayload(ParseHeader(operation, header).0, payload), rest))
  {
    HeaderSlices(bytes, operation, header, payload + rest);
    PayloadSlices(bytes, 1 + |header|, payload, rest);
  }

  lemma HeaderSlices(bytes: seq<Byte>, operation: Byte, header: seq<Byte>, tail: seq<Byte>)
    requires bytes == [operation] + (header + tail)
    ensures bytes[0] == operation && bytes[1..1 + |header|] == header && bytes[1 + |header|..] == tail
  {
  }

  lemma PayloadSlices(bytes: seq<Byte>, start: nat, payload: seq<Byte>, rest: seq<Byte>)
    requires start <= |bytes| && bytes[start..] == payload + rest
    ensures start + |payload| <= |bytes|
    ensures bytes[start..start + |payload|] == payload && bytes[start + |payload|..] == rest
  {
    assert bytes[start..][..|payload|] == payload && bytes[start..][|payload|..] == rest;
  }

  // ----- whole conversations ----------------------------------------------

  ghost predicate AllFit(ms: seq<Message>, capacity: nat) {
    AllEncodable(ms) && forall i :: 0 <= i < |ms| ==> |Encode(ms[i])| <= capacity
  }

  lemma {:induction false} FlattenAppend(codes: seq<seq<Byte>>, code: seq<Byte>)
    ensures Flatten(codes + [code]) == Flatten(codes) + code
  {
    if codes == [] {
      assert [code][1..] == [] && codes + [code] == [code];
    } else {
      assert (codes + [code])[1..] == codes[1..] + [code] && (codes + [code])[0] == codes[0];
      FlattenAppend(codes[1..], code);
    }
  }

  /** Composes one message and sends it. */
  method SendMessage(channel: Channel, buffer: Buffer, m: Message)
    requires channel.reliable && buffer.Valid() && Fits(m, buffer.data.Length)
    modifies channel, buffer, buffer.data
    ensures buffer.Valid() && channel.bytes == old(channel.bytes) + Encode(m)
  {
    Compose(buffer, m);
    var err;
    ghost var sent;
    err, sent := SendBuffer(channel, buffer);
    assert err == buffer.size;
  }

  /** The stream after `i` of the messages have been sent, and before the receiver
      gets to message `i`. */
  ghost function SentPart(ms: seq<Message>, i: nat): seq<Byte>
    requires AllEncodable(ms) && i <= |ms|
  {
    Flatten(Codes(ms)[..i])
  }

  ghost function UnreadPart(ms: seq<Message>, i: nat): seq<Byte>
    requires AllEncodable(ms) && i <= |ms|
  {
    Flatten(Codes(ms)[i..])
  }

  lemma SentStep(ms: seq<Message>, i: nat)
    requires AllEncodable(ms) && i < |ms|
    ensures SentPart(ms, i + 1) == SentPart(ms, i) + Encode(ms[i])
  {
    var codes := Codes(ms);
    assert codes[..i + 1] == codes[..i] + [codes[i]];
    FlattenAppend(codes[..i], codes[i]);
  }

  lemma UnreadStep(ms: seq<Message>, i: nat)
    requires AllEncodable(ms) && i < |ms|
    ensures UnreadPart(ms, i) == Encode(ms[i]) + UnreadPart(ms, i + 1)
  {
    assert Codes(ms)[i..][1..] == Codes(ms)[i + 1..];
  }

  lemma WholeStream(ms: seq<Message>)
    requires AllEncodable(ms)
    ensures SentPart(ms, 0) == [] && SentPart(ms, |ms|) == EncodeAll(ms)
    ensures UnreadPart(ms, 0) == EncodeAll(ms) && UnreadPart(ms, |ms|) == []
  {
    assert Codes(ms)[..|ms|] == Codes(ms) && Codes(ms)[0..] == Codes(ms);
  }

  /** The sending node: one message after the other. */
  method SendAll(channel: Channel, buffer: Buffer, ms: seq<Message>)
    requires channel.reliable && channel.bytes == [] && buffer.Valid() && AllFit(ms, buffer.data.Length)
    modifies channel, buffer, buffer.data
    ensures channel.bytes == EncodeAll(ms)
  {
    WholeStream(ms);
    for i := 0 to |ms|
      invariant buffer.Valid() && channel.bytes == SentPart(ms, i)
    {
      SendMessage(channel, buffer, ms[i]);
      SentStep(ms, i);
    }
  }

  /** Receives message `i`, with which the stream starts. */
  method ReceiveNext(channel: Channel, buffer: Buffer, memory: Memory, asserts: bool, ghost ms: seq<Message>,
                     ghost i: nat)
    returns (m: Message)
    requires channel.reliable && buffer.Valid() && buffer.data.Length >= 28 && memory.Valid()
    requires AllFit(ms, buffer.data.Length)
    requires i < |ms| && channel.bytes == UnreadPart(ms, i)
    modifies channel, buffer, buffer.data
    ensures buffer.Valid() && m == ms[i] && channel.bytes == UnreadPart(ms, i + 1)
  {
    UnreadStep(ms, i);
    DecodeEncode(ms[i], UnreadPart(ms, i + 1), buffer.data.Length);
    var outcome, operation, header, payload := ReceiveMessage(channel, buffer, memory, asserts);
    m := outcome.message;
  }

  /** The receiving node: as many messages as were sent. */
  method ReceiveAll(channel: Channel, buffer: Buffer, memory: Memory, asserts: bool, count: nat, ghost ms: seq<Message>)
    returns (received: seq<Message>)
    requires channel.reliable && buffer.Valid() && buffer.data.Length >= 28 && memory.Valid()
    requires AllFit(ms, buffer.data.Length)
    requires count == |ms| && channel.bytes == EncodeAll(ms)
    modifies channel, buffer, buffer.data
    ensures received == ms && channel.bytes == []
  {
    received := [];
    WholeStream(ms);
    for i := 0 to count
      invariant buffer.Valid() && received == ms[..i] && channel.bytes == UnreadPart(ms, i)
    {
      var m := ReceiveNext(channel, buffer, memory, asserts, ms, i);
      received := received + [m];
    }
  }

  // ----- nodes that run at the same time ----------------------------------

  /** All whole messages at the front of a stream, and what follows them. */
  function DecodeAll(bytes: seq<Byte>, capacity: nat): (seq<Message>, seq<Byte>)
    decreases |bytes|
  {
    match Decode(bytes, capacity)
    case None => ([], bytes)
    case Some((m, rest)) =>
      var (ms, tail) := DecodeAll(rest, capacity);
      ([m] + ms, tail)
  }

  /** Bytes that arrive later do not change what has been decoded. */
  lemma DecodeExtends(bytes: seq<Byte>, more: seq<Byte>, capacity: nat)
    requires Decode(bytes, capacity).Some?
    ensures var (m, rest) := Decode(bytes, capacity).value;
            Decode(bytes + more, capacity) == Some((m, rest + more)) && |rest| < |bytes|
  {
    DecodeNeeds(bytes, capacity);
    var start := 1 + HeaderSize(bytes[0]);
    var (fields, length) := ParseHeader(bytes[0], bytes[1..start]);
    assert (bytes + more)[1..start] == bytes[1..start];
    assert (bytes + more)[start..start + length] == bytes[start..start + length];
    assert (bytes + more)[start + length..] == bytes[start + length..] + more;
  }

  /** Part of a message is not decoded. */
  lemma PartNotDecoded(m: Message, n: nat, capacity: nat)
    requires Fits(m, capacity) && n < |Encode(m)|
    ensures Decode(Encode(m)[..n], capacity).None?
  {
    var bytes, more := Encode(m)[..n], Encode(m)[n..];
    assert bytes + more == Encode(m) && Encode(m) + [] == Encode(m);
    DecodeEncode(m, [], capacity);
    if Decode(bytes, capacity).Some? {
      DecodeExtends(bytes, more, capacity);
    }
  }

  lemma EncodeFirst(m: Message, ms: seq<Message>)
    requires Encodable(m) && AllEncodable(ms)
    ensures AllEncodable([m] + ms) && EncodeAll([m] + ms) == Encode(m) + EncodeAll(ms)
  {
    assert ([m] + ms)[1..] == ms;
    assert Codes([m] + ms)[1..] == Codes(ms);
  }

  /** From these bytes exactly the first ones of the messages can be decoded. */
  ghost predicate Yields(bytes: seq<Byte>, ms: seq<Message>, capacity: nat)
    requires AllEncodable(ms)
  {
    var (got, rest) := DecodeAll(bytes, capacity);
    got <= ms && EncodeAll(got) + rest == bytes && (bytes == EncodeAll(ms) ==> got == ms && rest == [])
  }

  lemma YieldsPart(m: Message, ms: seq<Message>, n: nat, capacity: nat)
    requires Fits(m, capacity) && AllEncodable(ms) && n < |Encode(m)|
    ensures AllEncodable([m] + ms) && Yields(Encode(m)[..n], [m] + ms, capacity)
  {
    PartNotDecoded(m, n, capacity);
    EncodeFirst(m, ms);
    assert EncodeAll([]) == [];
    assert |Encode(m)[..n]| < |EncodeAll([m] + ms)|;
  }

  lemma DecodeAllMore(m: Message, bytes: seq<Byte>, capacity: nat)
    requires Fits(m, capacity)
    ensures DecodeAll(Encode(m) + bytes, capacity) == ([m] + DecodeAll(bytes, capacity).0, DecodeAll(bytes, capacity).1)
  {
    DecodeEncode(m, bytes, capacity);
  }

  lemma SamePrefix(a: seq<Byte>, b: seq<Byte>, c: seq<Byte>)
    ensures a + b == a + c ==> b == c
    ensures a + (b + c) == a + b + c
  {
    assert (a + b)[|a|..] == b && (a + c)[|a|..] == c;
  }

  lemma YieldsMore(m: Message, ms: seq<Message>, bytes: seq<Byte>, capacity: nat)
    requires Fits(m, capacity) && AllEncodable(ms) && Yields(bytes, ms, capacity)
    ensures AllEncodable([m] + ms) && Yields(Encode(m) + bytes, [m] + ms, capacity)
  {
    DecodeAllMore(m, bytes, capacity);
    var (got, rest) := DecodeAll(bytes, capacity);
    EncodeFirst(m, ms);
    EncodeFirst(m, got);
    SamePrefix(Encode(m), EncodeAll(got), rest);
    SamePrefix(Encode(m), bytes, EncodeAll(ms));
  }

  /** Whenever some of the bytes have arrived, the messages that can be decoded are the
      first ones sent, the rest belongs to the next one, and in the end all are. */
  lemma {:induction false} AnyMoment(ms: seq<Message>, n: nat, capacity: nat)
    requires AllFit(ms, capacity) && n <= |EncodeAll(ms)|
    ensures Yields(EncodeAll(ms)[..n], ms, capacity)
    decreases |ms|
  {
    if ms == [] {
      assert EncodeAll(ms)[..n] == [];
    } else {
      var m, others := ms[0], ms[1..];
      assert ms == [m] + others;
      EncodeFirst(m, others);
      if n < |Encode(m)| {
        YieldsPart(m, others, n, capacity);
        assert EncodeAll(ms)[..n] == Encode(m)[..n];
      } else {
        AnyMoment(others, n - |Encode(m)|, capacity);
        YieldsMore(m, others, EncodeAll(others)[..n - |Encode(m)|], capacity);
        assert EncodeAll(ms)[..n] == Encode(m) + EncodeAll(others)[..n - |Encode(m)|];
      }
    }
  }

  /** Any list of messages that fit the buffers arrives as sent: in order, complete
      and unchanged, whatever the chunks in which it is sent and received. */
  method Converse(channel: Channel, send: Buffer, receive: Buffer, memory: Memory, asserts: bool, ms: seq<Message>)
    returns (received: seq<Message>)
    requires memory.Valid()
    requires channel.reliable && channel.bytes == [] && send.Valid() && receive.Valid()
    requires send != receive && send.data != receive.data && receive.data.Length >= 28
    requires AllFit(ms, send.data.Length) && AllFit(ms, receive.data.Length)
    modifies channel, send, send.data, receive, receive.data
    ensures received == ms && channel.bytes == []
  {
    SendAll(channel, send, ms);
    received := ReceiveAll(channel, receive, memory, asserts, |ms|, ms);
  }
}
