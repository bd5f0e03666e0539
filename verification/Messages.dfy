/** The frames of one session, without the session id and target that are the same in all of them. */
module Messages {
  import opened Streams
  import Wire

  datatype Msg =
    | Open
    | Attach(offset: nat)
    | AttachOk(offset: nat)
    | Data(offset: nat, payload: Bytes)
    | Ack(offset: nat)
    | CloseUp
    | CloseDown

  /** encodeFrame refuses a DATA frame over the payload limit; the other frames of a session always fit. */
  predicate Encodable(m: Msg) {
    m.Data? ==> |m.payload| <= Wire.MAX_PAYLOAD
  }

  function ToFrame(m: Msg, sid: Wire.u64, target: Bytes, reason: Bytes): Wire.Frame
    requires (m.Attach? || m.AttachOk? || m.Data? || m.Ack?) ==> m.offset < 0x1_0000_0000_0000_0000
  {
    match m
    case Open => Wire.Open(sid, target)
    case Attach(offset) => Wire.Attach(sid, offset, target)
    case AttachOk(offset) => Wire.AttachOK(sid, offset)
    case Data(offset, payload) => Wire.Data(sid, offset, payload)
    case Ack(offset) => Wire.Ack(sid, offset)
    case CloseUp => Wire.Close(sid, 1, reason)
    case CloseDown => Wire.Close(sid, 2, reason)
  }

  /** The session model's refusal rule is the codec's, but for the strings that the model leaves out. */
  lemma EncodableMatchesCodec(m: Msg, sid: Wire.u64, target: Bytes, reason: Bytes)
    requires (m.Attach? || m.AttachOk? || m.Data? || m.Ack?) ==> m.offset < 0x1_0000_0000_0000_0000
    ensures Wire.Encode(ToFrame(m, sid, target, reason)).ok <==>
              && Encodable(m)
              && (m.Open? || m.Attach? ==> |target| <= Wire.MAX_STRING)
              && (m.CloseUp? || m.CloseDown? ==> |reason| <= Wire.MAX_STRING)
  {
  }

  /** What a session makes of a frame that was read: the frame's kind, and for a close its direction. */
  function FromFrame(f: Wire.Frame): Option<Msg> {
    match f
    case Open(_, _) => Some(Open)
    case Attach(_, offset, _) => Some(Attach(offset))
    case AttachOK(_, offset) => Some(AttachOk(offset))
    case Data(_, offset, payload) => Some(Data(offset, payload))
    case Ack(_, offset) => Some(Ack(offset))
    case Close(_, dir, _) => if dir == 1 then Some(CloseUp) else if dir == 2 then Some(CloseDown) else None
    case _ => None
  }

  function SessionOf(f: Wire.Frame): Option<Wire.u64> {
    match f
    case Hello(_) => None
    case Ping(_) => None
    case Pong(_) => None
    case _ => Some(f.sessionID)
  }

  /** Over the wire, with whatever follows on the connection: a message that the encoder takes arrives as that
      message, of that session, with its target. */
  lemma MessageRoundTrip(m: Msg, sid: Wire.u64, target: Bytes, reason: Bytes, tail: Bytes)
    requires (m.Attach? || m.AttachOk? || m.Data? || m.Ack?) ==> m.offset < 0x1_0000_0000_0000_0000
    requires Wire.Encode(ToFrame(m, sid, target, reason)).ok
    ensures var r := Wire.Decode(Wire.Encode(ToFrame(m, sid, target, reason)).pushed + tail);
            && r.Ok? && r.rest == tail && FromFrame(r.value) == Some(m) && SessionOf(r.value) == Some(sid)
            && (m.Open? || m.Attach? ==> r.value.target == target)
  {
    hide Wire.Encode, Wire.Decode;
    Wire.RoundTrip(ToFrame(m, sid, target, reason), tail);
  }

  /** And the other way: a frame that means something to a session is that message's frame. */
  lemma FrameOfMessage(f: Wire.Frame)
    requires FromFrame(f).Some?
    ensures SessionOf(f).Some?
    ensures var m := FromFrame(f).value;
            && ((m.Attach? || m.AttachOk? || m.Data? || m.Ack?) ==> m.offset < 0x1_0000_0000_0000_0000)
            && ToFrame(m, SessionOf(f).value, if f.Open? || f.Attach? then f.target else [],
                       if f.Close? then f.reason else []) == f
  {
  }
}
