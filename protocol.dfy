/**
 * The wire codec of the game: one-byte message types, one-byte payload
 * lengths, and the serialize/deserialize pair that turns a typed payload into
 * a frame `[type][size] ++ payload` and back.
 */
module Protocol {
  import opened Wrappers

  /** One octet, the unit of every field on the wire. */
  newtype byte = x: int | 0 <= x < 256

  // Message type codes (MsgType). Any other byte value can still arrive.
  const WELCOME: byte := 1
  const SERVER_FULL: byte := 2
  const BOARD_UPDATE: byte := 3
  const TURN: byte := 4
  const MOVE_RESULT: byte := 5
  const WIN: byte := 6
  const DRAW: byte := 7
  const ERROR: byte := 8
  const MOVE_REQUEST: byte := 100
  const QUIT_REQUEST: byte := 101

  /** Status codes returned by serialize and deserialize (ProtoErr). */
  datatype ProtoErr = Ok | InvalidType | InvalidSize | NullPayload | BufferTooSmall | SizeMismatch
  {
    /** The integer the C++ functions return for this status. */
    function Code(): int {
      match this
      case Ok => 0
      case InvalidType => 1
      case InvalidSize => 2
      case NullPayload => 3
      case BufferTooSmall => 4
      case SizeMismatch => 5
    }
  }

  /** The two-field header: type first, then payload size. */
  datatype MsgHeader = MsgHeader(kind: byte, size: byte)

  /** Bytes occupied by the header on the wire, sizeof(MsgHeader). */
  const HEADER_SIZE: nat := 2
  /** Largest payload a one-byte size field can announce. */
  const MAX_PAYLOAD: nat := 255

  // Sizes of the fixed payload structs.
  const WELCOME_SIZE: nat := 1      // PL_Welcome { p_id }
  const BOARD_SIZE: nat := 9        // PL_Board { cells[9] }
  const MOVE_REQUEST_SIZE: nat := 1 // PL_MovReq { pos }
  const MOVE_RESULT_SIZE: nat := 1  // PL_MovRes { status }

  /** A decoded message: a type byte and its payload bytes. */
  datatype Message = Message(kind: byte, payload: seq<byte>)

  /** A message whose payload fits the one-byte size field. */
  predicate Encodable(m: Message) {
    |m.payload| <= MAX_PAYLOAD
  }

  /**
   * The number of payload bytes a receiver copies out of a message of type
   * `kind` (memcpy of the payload struct, or `pl[0]` for one-byte payloads).
   */
  function MinPayload(kind: byte): nat {
    if kind == WELCOME then WELCOME_SIZE
    else if kind == BOARD_UPDATE then BOARD_SIZE
    else if kind == MOVE_REQUEST then MOVE_REQUEST_SIZE
    else if kind == MOVE_RESULT then MOVE_RESULT_SIZE
    else if kind == TURN || kind == WIN then 1
    else 0
  }

  /** The frame of a payload that fits: header bytes, then the payload. */
  function Frame(kind: byte, payload: seq<byte>): (f: seq<byte>)
    requires |payload| <= MAX_PAYLOAD
    ensures HEADER_SIZE <= |f| <= HEADER_SIZE + MAX_PAYLOAD
    ensures |f| == HEADER_SIZE + |payload|
    ensures f[0] == kind && f[1] as int == |payload| && f[HEADER_SIZE..] == payload
  {
    [kind, |payload| as byte] + payload
  }

  /**
   * serialize: builds the frame of `size` bytes read from `payload` into the
   * caller's vector. `payload == None` is a null pointer. The vector's old
   * contents are `out`; its new contents are `out'`.
   */
  method Serialize(kind: byte, payload: Option<seq<byte>>, size: nat, out: seq<byte>)
    returns (err: ProtoErr, out': seq<byte>)
    requires payload.Some? && size <= MAX_PAYLOAD ==> size <= |payload.value|
    ensures err != InvalidType
    ensures size > MAX_PAYLOAD ==> err == InvalidSize
    ensures size <= MAX_PAYLOAD && payload.None? && size > 0 ==> err == NullPayload
    ensures err != Ok ==> out' == out
    ensures err == Ok <==> size <= MAX_PAYLOAD && (payload.Some? || size == 0)
    ensures err == Ok ==>
      out' == Frame(kind, if payload.Some? then payload.value[..size] else [])
  {
    if size > MAX_PAYLOAD {
      return InvalidSize, out;
    }
    if payload.None? && size > 0 {
      return NullPayload, out;
    }
    var h := MsgHeader(kind, size as byte);
    out' := [h.kind, h.size];
    if size > 0 {
      out' := out' + payload.value[..size];
    }
    err := Ok;
  }

  /**
   * deserialize: reads a header and its payload from `bytes` into the
   * caller's header and payload (old values `header`, `payload`; new values
   * `header'`, `payload'`). Bytes after the payload are ignored.
   */
  method Deserialize(bytes: seq<byte>, header: MsgHeader, payload: seq<byte>)
    returns (err: ProtoErr, header': MsgHeader, payload': seq<byte>)
    ensures err in {Ok, BufferTooSmall, SizeMismatch}
    ensures |bytes| < HEADER_SIZE <==> err == BufferTooSmall
    ensures err == BufferTooSmall ==> header' == header && payload' == payload
    ensures err != BufferTooSmall ==> header' == MsgHeader(bytes[0], bytes[1])
    ensures err == SizeMismatch <==>
      HEADER_SIZE <= |bytes| < HEADER_SIZE + bytes[1] as int
    ensures err == SizeMismatch ==> payload' == payload
    ensures err == Ok ==>
      |payload'| == header'.size as int &&
      payload' == bytes[HEADER_SIZE..HEADER_SIZE + header'.size as int]
  {
    if |bytes| < HEADER_SIZE {
      return BufferTooSmall, header, payload;
    }
    header' := MsgHeader(bytes[0], bytes[1]);
    if |bytes| < HEADER_SIZE + header'.size as int {
      return SizeMismatch, header', payload;
    }
    payload' := bytes[HEADER_SIZE..HEADER_SIZE + header'.size as int];
    err := Ok;
  }

  /**
   * A frame built by serialize and handed to deserialize, possibly followed
   * by the bytes of later frames, yields exactly the type and payload that
   * went in, whatever the two out-parameters held before.
   */
  method SerializeThenDeserialize(kind: byte, data: seq<byte>, trailing: seq<byte>,
                                  out: seq<byte>, header: MsgHeader, payload: seq<byte>)
    returns (err1: ProtoErr, err2: ProtoErr, header': MsgHeader, payload': seq<byte>)
    requires |data| <= MAX_PAYLOAD
    ensures err1 == Ok && err2 == Ok
    ensures header' == MsgHeader(kind, |data| as byte) && payload' == data
  {
    var frame;
    err1, frame := Serialize(kind, Some(data), |data|, out);
    err2, header', payload' := Deserialize(frame + trailing, header, payload);
  }

  /** Frames are self-delimiting: a frame is never a proper prefix of another frame. */
  lemma FrameUnique(k1: byte, p1: seq<byte>, k2: byte, p2: seq<byte>, rest: seq<byte>)
    requires |p1| <= MAX_PAYLOAD && |p2| <= MAX_PAYLOAD
    requires Frame(k1, p1) + rest == Frame(k2, p2)
    ensures k1 == k2 && p1 == p2 && rest == []
  {
    var f1, f2 := Frame(k1, p1), Frame(k2, p2);
    assert (f1 + rest)[1] == f1[1];
    assert |p1| == |p2|;
    assert p1 == (f1 + rest)[HEADER_SIZE..HEADER_SIZE + |p1|] == p2;
  }
}
