/** The frame codec of internal/tunnel/wire.go, as functions over byte sequences.

    Encoding pushes fields into a buffered writer one by one, so a refused frame may leave a residue
    in the writer; `Encoded` keeps both the bytes pushed and whether the frame was accepted. */
module Wire {
  import opened Streams

  const MAX_PAYLOAD: nat := 256 * 1024
  const MAX_STRING: nat := 4096

  type u8 = x: int | 0 <= x < 0x100
  type u64 = x: int | 0 <= x < 0x1_0000_0000_0000_0000

  /** A Go string is a byte string. The constructors carry the fields that are meaningful for the type. */
  datatype Frame =
    | Hello(actorID: Bytes)
    | Open(sessionID: u64, target: Bytes)
    | Attach(sessionID: u64, offset: u64, target: Bytes)
    | AttachOK(sessionID: u64, offset: u64)
    | Data(sessionID: u64, offset: u64, payload: Bytes)
    | Ack(sessionID: u64, offset: u64)
    | Close(sessionID: u64, dir: u8, reason: Bytes)
    | Ping(nonce: u64)
    | Pong(nonce: u64)

  function TypeByte(f: Frame): byte {
    match f
    case Hello(_) => 1
    case Open(_, _) => 2
    case Attach(_, _, _) => 3
    case AttachOK(_, _) => 4
    case Data(_, _, _) => 5
    case Ack(_, _) => 6
    case Close(_, _, _) => 7
    case Ping(_) => 8
    case Pong(_) => 9
  }

  // ---------------------------------------------------------------- big-endian integers

  function BigEndian(v: nat, width: nat): (bs: Bytes)
    ensures |bs| == width
  {
    if width == 0 then [] else BigEndian(v / 256, width - 1) + [v % 256]
  }

  function Number(bs: Bytes): nat {
    if bs == [] then 0 else Number(bs[..|bs| - 1]) * 256 + bs[|bs| - 1]
  }

  function Pow256(width: nat): nat {
    if width == 0 then 1 else 256 * Pow256(width - 1)
  }

  lemma {:induction false} NumberOfBigEndian(v: nat, width: nat)
    requires v < Pow256(width)
    ensures Number(BigEndian(v, width)) == v
  {
    if width > 0 {
      NumberOfBigEndian(v / 256, width - 1);
      var bs := BigEndian(v, width);
      assert bs[..|bs| - 1] == BigEndian(v / 256, width - 1);
    }
  }

  lemma {:induction false} BigEndianOfNumber(bs: Bytes)
    ensures Number(bs) < Pow256(|bs|)
    ensures BigEndian(Number(bs), |bs|) == bs
  {
    if bs != [] {
      var init := bs[..|bs| - 1];
      BigEndianOfNumber(init);
      assert Number(bs) / 256 == Number(init);
      assert Number(bs) % 256 == bs[|bs| - 1];
      assert bs == init + [bs[|bs| - 1]];
    }
  }

  lemma Widths()
    ensures Pow256(2) == 0x1_0000
    ensures Pow256(4) == 0x1_0000_0000
    ensures Pow256(8) == 0x1_0000_0000_0000_0000
  {
  }

  // ---------------------------------------------------------------- encoding

  datatype Encoded = Encoded(pushed: Bytes, ok: bool)

  function PutString(s: Bytes): Encoded {
    if |s| > MAX_STRING then Encoded([], false) else Encoded(BigEndian(|s|, 2) + s, true)
  }

  function PutPayload(p: Bytes): Encoded {
    if |p| > MAX_PAYLOAD then Encoded([], false) else Encoded(BigEndian(|p|, 4) + p, true)
  }

  function After(head: Bytes, e: Encoded): Encoded { Encoded(head + e.pushed, e.ok) }

  function Body(f: Frame): Encoded {
    match f
    case Hello(actorID) => PutString(actorID)
    case Open(sid, target) => After(BigEndian(sid, 8), PutString(target))
    case Attach(sid, offset, target) => After(BigEndian(sid, 8), After(BigEndian(offset, 8), PutString(target)))
    case AttachOK(sid, offset) => Encoded(BigEndian(sid, 8) + BigEndian(offset, 8), true)
    case Data(sid, offset, payload) => After(BigEndian(sid, 8), After(BigEndian(offset, 8), PutPayload(payload)))
    case Ack(sid, offset) => Encoded(BigEndian(sid, 8) + BigEndian(offset, 8), true)
    case Close(sid, dir, reason) => After(BigEndian(sid, 8), After([dir], PutString(reason)))
    case Ping(nonce) => Encoded(BigEndian(nonce, 8), true)
    case Pong(nonce) => Encoded(BigEndian(nonce, 8), true)
  }

  function Encode(f: Frame): Encoded { After([TypeByte(f)], Body(f)) }

  // ---------------------------------------------------------------- decoding

  /** Truncated stands for the reader hitting the end of the connection inside a frame. */
  datatype Error = Truncated | PayloadTooBig | UnknownType

  datatype Read<+T> = Ok(value: T, rest: Bytes) | Err(error: Error) {
    predicate IsFailure() { Err? }
    function PropagateFailure<U>(): Read<U>
      requires Err?
    {
      Err(error)
    }
    function Extract(): (T, Bytes)
      requires Ok?
    {
      (value, rest)
    }
  }

  function Take(r: Bytes, n: nat): (x: Read<Bytes>)
    ensures x.Ok? ==> |x.rest| <= |r|
  {
    if |r| < n then Err(Truncated) else Ok(r[..n], r[n..])
  }

  function GetU64(r: Bytes): (x: Read<u64>)
    ensures x.Ok? ==> |x.rest| <= |r|
  {
    var (bs, rest) :- Take(r, 8);
    BigEndianOfNumber(bs); Widths();
    Ok(Number(bs), rest)
  }

  /** getString bounds the length by its two-byte prefix alone, not by MAX_STRING. */
  function GetString(r: Bytes): (x: Read<Bytes>)
    ensures x.Ok? ==> |x.rest| <= |r|
  {
    var (bs, rest) :- Take(r, 2);
    Take(rest, Number(bs))
  }

  function GetPayload(r: Bytes): (x: Read<Bytes>)
    ensures x.Ok? ==> |x.rest| <= |r|
  {
    var (bs, rest) :- Take(r, 4);
    if Number(bs) > MAX_PAYLOAD then Err(PayloadTooBig) else Take(rest, Number(bs))
  }

  function GetOpen(r: Bytes): (x: Read<Frame>)
    ensures x.Ok? ==> |x.rest| <= |r|
  {
    var (sid, r) :- GetU64(r);
    var (target, r) :- GetString(r);
    Ok(Open(sid, target), r)
  }

  function GetAttach(r: Bytes): (x: Read<Frame>)
    ensures x.Ok? ==> |x.rest| <= |r|
  {
    var (sid, r) :- GetU64(r);
    var (offset, r) :- GetU64(r);
    var (target, r) :- GetString(r);
    Ok(Attach(sid, offset, target), r)
  }

  function GetPair(r: Bytes): (x: Read<(u64, u64)>)
    ensures x.Ok? ==> |x.rest| <= |r|
  {
    var (sid, r) :- GetU64(r);
    var (offset, r) :- GetU64(r);
    Ok((sid, offset), r)
  }

  function GetData(r: Bytes): (x: Read<Frame>)
    ensures x.Ok? ==> |x.rest| <= |r|
  {
    var (sid, r) :- GetU64(r);
    var (offset, r) :- GetU64(r);
    var (payload, r) :- GetPayload(r);
    Ok(Data(sid, offset, payload), r)
  }

  function GetClose(r: Bytes): (x: Read<Frame>)
    ensures x.Ok? ==> |x.rest| <= |r|
  {
    var (sid, r) :- GetU64(r);
    var (dir, r) :- Take(r, 1);
    var (reason, r) :- GetString(r);
    Ok(Close(sid, dir[0], reason), r)
  }

  function GetBody(t: byte, r: Bytes): (x: Read<Frame>)
    ensures x.Ok? ==> |x.rest| <= |r|
  {
    match t
    case 1 => var (actorID, r) :- GetString(r); Ok(Hello(actorID), r)
    case 2 => GetOpen(r)
    case 3 => GetAttach(r)
    case 4 => var (p, r) :- GetPair(r); Ok(AttachOK(p.0, p.1), r)
    case 5 => GetData(r)
    case 6 => var (p, r) :- GetPair(r); Ok(Ack(p.0, p.1), r)
    case 7 => GetClose(r)
    case 8 => var (nonce, r) :- GetU64(r); Ok(Ping(nonce), r)
    case 9 => var (nonce, r) :- GetU64(r); Ok(Pong(nonce), r)
    case _ => Err(UnknownType)
  }

  function Decode(r: Bytes): Read<Frame> {
    if r == [] then Err(Truncated) else GetBody(r[0], r[1..])
  }

  // ---------------------------------------------------------------- one field, one frame

  lemma TakeConcat(a: Bytes, tail: Bytes)
    ensures Take(a + tail, |a|) == Ok(a, tail)
  {
  }

  lemma GetPutU64(v: u64, tail: Bytes)
    ensures GetU64(BigEndian(v, 8) + tail) == Ok(v, tail)
  {
    Widths();
    TakeConcat(BigEndian(v, 8), tail);
    NumberOfBigEndian(v, 8);
  }

  lemma GetPutString(s: Bytes, tail: Bytes)
    requires |s| <= MAX_STRING
    ensures GetString(PutString(s).pushed + tail) == Ok(s, tail)
  {
    Widths();
    assert BigEndian(|s|, 2) + s + tail == BigEndian(|s|, 2) + (s + tail);
    TakeConcat(BigEndian(|s|, 2), s + tail);
    NumberOfBigEndian(|s|, 2);
    TakeConcat(s, tail);
  }

  lemma GetPutPayload(p: Bytes, tail: Bytes)
    requires |p| <= MAX_PAYLOAD
    ensures GetPayload(PutPayload(p).pushed + tail) == Ok(p, tail)
  {
    Widths();
    assert BigEndian(|p|, 4) + p + tail == BigEndian(|p|, 4) + (p + tail);
    TakeConcat(BigEndian(|p|, 4), p + tail);
    NumberOfBigEndian(|p|, 4);
    TakeConcat(p, tail);
  }

  lemma GetPutPair(v: u64, w: u64, tail: Bytes)
    ensures GetPair(BigEndian(v, 8) + BigEndian(w, 8) + tail) == Ok((v, w), tail)
  {
    assert BigEndian(v, 8) + BigEndian(w, 8) + tail == BigEndian(v, 8) + (BigEndian(w, 8) + tail);
    GetPutU64(v, BigEndian(w, 8) + tail);
    GetPutU64(w, tail);
  }

  lemma AfterThen(head: Bytes, e: Encoded, tail: Bytes)
    ensures After(head, e).pushed + tail == head + (e.pushed + tail)
  {
  }

  lemma OpenRoundTrip(sid: u64, target: Bytes, tail: Bytes)
    requires |target| <= MAX_STRING
    ensures GetOpen(Body(Open(sid, target)).pushed + tail) == Ok(Open(sid, target), tail)
  {
    var e := PutString(target);
    AfterThen(BigEndian(sid, 8), e, tail);
    GetPutU64(sid, e.pushed + tail);
    GetPutString(target, tail);
  }

  lemma AttachRoundTrip(sid: u64, offset: u64, target: Bytes, tail: Bytes)
    requires |target| <= MAX_STRING
    ensures GetAttach(Body(Attach(sid, offset, target)).pushed + tail) == Ok(Attach(sid, offset, target), tail)
  {
    var e := PutString(target);
    var e' := After(BigEndian(offset, 8), e);
    AfterThen(BigEndian(sid, 8), e', tail);
    AfterThen(BigEndian(offset, 8), e, tail);
    GetPutU64(sid, e'.pushed + tail);
    GetPutU64(offset, e.pushed + tail);
    GetPutString(target, tail);
  }

  lemma DataRoundTrip(sid: u64, offset: u64, payload: Bytes, tail: Bytes)
    requires |payload| <= MAX_PAYLOAD
    ensures GetData(Body(Data(sid, offset, payload)).pushed + tail) == Ok(Data(sid, offset, payload), tail)
  {
    var e := PutPayload(payload);
    var e' := After(BigEndian(offset, 8), e);
    AfterThen(BigEndian(sid, 8), e', tail);
    AfterThen(BigEndian(offset, 8), e, tail);
    GetPutU64(sid, e'.pushed + tail);
    GetPutU64(offset, e.pushed + tail);
    GetPutPayload(payload, tail);
  }

  lemma CloseRoundTrip(sid: u64, dir: u8, reason: Bytes, tail: Bytes)
    requires |reason| <= MAX_STRING
    ensures GetClose(Body(Close(sid, dir, reason)).pushed + tail) == Ok(Close(sid, dir, reason), tail)
  {
    var e := PutString(reason);
    var e' := After([dir], e);
    AfterThen(BigEndian(sid, 8), e', tail);
    AfterThen([dir], e, tail);
    GetPutU64(sid, e'.pushed + tail);
    TakeConcat([dir], e.pushed + tail);
    GetPutString(reason, tail);
  }

  lemma PlainBodyRoundTrip(f: Frame, tail: Bytes)
    requires f.Hello? || f.AttachOK? || f.Ack? || f.Ping? || f.Pong?
    requires Body(f).ok
    ensures GetBody(TypeByte(f), Body(f).pushed + tail) == Ok(f, tail)
  {
    match f {
      case Hello(actorID) => GetPutString(actorID, tail);
      case AttachOK(sid, offset) => GetPutPair(sid, offset, tail);
      case Ack(sid, offset) => GetPutPair(sid, offset, tail);
      case Ping(nonce) => GetPutU64(nonce, tail);
      case Pong(nonce) => GetPutU64(nonce, tail);
    }
  }

  lemma BodyRoundTrip(f: Frame, tail: Bytes)
    requires Body(f).ok
    ensures GetBody(TypeByte(f), Body(f).pushed + tail) == Ok(f, tail)
  {
    match f {
      case Open(sid, target) => OpenRoundTrip(sid, target, tail);
      case Attach(sid, offset, target) => AttachRoundTrip(sid, offset, target, tail);
      case Data(sid, offset, payload) => DataRoundTrip(sid, offset, payload, tail);
      case Close(sid, dir, reason) => CloseRoundTrip(sid, dir, reason, tail);
      case _ => PlainBodyRoundTrip(f, tail);
    }
  }

  /** Decoding an accepted encoding gives back the frame and leaves whatever follows untouched. */
  lemma RoundTrip(f: Frame, tail: Bytes)
    requires Encode(f).ok
    ensures Decode(Encode(f).pushed + tail) == Ok(f, tail)
  {
    var r := Encode(f).pushed + tail;
    assert r[0] == TypeByte(f) && r[1..] == Body(f).pushed + tail;
    BodyRoundTrip(f, tail);
  }

  // ---------------------------------------------------------------- truncation

  /** What a decoder step may answer when more bytes arrive later: a success keeps its value and
      hands on the new bytes, a refusal other than Truncated stands. */
  ghost predicate Stable<T(!new)>(short: Read<T>, long: Read<T>, more: Bytes) {
    match short
    case Ok(v, rest) => long == Ok(v, rest + more)
    case Err(Truncated) => true
    case Err(e) => long == Err(e)
  }

  lemma TakeStable(r: Bytes, more: Bytes, n: nat)
    ensures Stable(Take(r, n), Take(r + more, n), more)
  {
    if n <= |r| {
      assert (r + more)[..n] == r[..n] && (r + more)[n..] == r[n..] + more;
    }
  }

  lemma GetU64Stable(r: Bytes, more: Bytes)
    ensures Stable(GetU64(r), GetU64(r + more), more)
  {
    TakeStable(r, more, 8);
  }

  lemma GetStringStable(r: Bytes, more: Bytes)
    ensures Stable(GetString(r), GetString(r + more), more)
  {
    TakeStable(r, more, 2);
    if |r| >= 2 { TakeStable(r[2..], more, Number(r[..2])); }
  }

  lemma GetPayloadStable(r: Bytes, more: Bytes)
    ensures Stable(GetPayload(r), GetPayload(r + more), more)
  {
    TakeStable(r, more, 4);
    if |r| >= 4 { TakeStable(r[4..], more, Number(r[..4])); }
  }

  lemma OpenStable(r: Bytes, more: Bytes)
    ensures Stable(GetOpen(r), GetOpen(r + more), more)
  {
    GetU64Stable(r, more);
    if GetU64(r).Ok? { GetStringStable(GetU64(r).rest, more); }
  }

  lemma PairStable(r: Bytes, more: Bytes)
    ensures Stable(GetPair(r), GetPair(r + more), more)
  {
    GetU64Stable(r, more);
    if GetU64(r).Ok? { GetU64Stable(GetU64(r).rest, more); }
  }

  lemma AttachStable(r: Bytes, more: Bytes)
    ensures Stable(GetAttach(r), GetAttach(r + more), more)
  {
    PairStable(r, more);
    if GetPair(r).Ok? { GetStringStable(GetPair(r).rest, more); }
  }

  lemma DataStable(r: Bytes, more: Bytes)
    ensures Stable(GetData(r), GetData(r + more), more)
  {
    PairStable(r, more);
    if GetPair(r).Ok? { GetPayloadStable(GetPair(r).rest, more); }
  }

  lemma CloseStable(r: Bytes, more: Bytes)
    ensures Stable(GetClose(r), GetClose(r + more), more)
  {
    GetU64Stable(r, more);
    if GetU64(r).Ok? {
      var r' := GetU64(r).rest;
      TakeStable(r', more, 1);
      if |r'| >= 1 { GetStringStable(r'[1..], more); }
    }
  }

  lemma BodyStable(t: byte, r: Bytes, more: Bytes)
    ensures Stable(GetBody(t, r), GetBody(t, r + more), more)
  {
    match t
    case 1 => GetStringStable(r, more);
    case 2 => OpenStable(r, more);
    case 3 => AttachStable(r, more);
    case 4 => PairStable(r, more);
    case 5 => DataStable(r, more);
    case 6 => PairStable(r, more);
    case 7 => CloseStable(r, more);
    case 8 => GetU64Stable(r, more);
    case 9 => GetU64Stable(r, more);
    case _ =>
  }

  /** The decoder never changes its mind: bytes that arrive later cannot alter a frame already
      decoded nor turn a refused one into a frame. */
  lemma DecodeStable(r: Bytes, more: Bytes)
    ensures Stable(Decode(r), Decode(r + more), more)
  {
    if r != [] {
      assert (r + more)[1..] == r[1..] + more;
      BodyStable(r[0], r[1..], more);
    }
  }

  /** No strict prefix of an encoding decodes, and the reader reports it as a truncation. */
  lemma NoStrictPrefixDecodes(f: Frame, k: nat)
    requires Encode(f).ok
    requires k < |Encode(f).pushed|
    ensures Decode(Encode(f).pushed[..k]) == Err(Truncated)
  {
    var bs := Encode(f).pushed;
    DecodeStable(bs[..k], bs[k..]);
    assert bs[..k] + bs[k..] == bs == bs + [];
    RoundTrip(f, []);
  }

  lemma U64WasPut(r: Bytes)
    ensures GetU64(r).Ok? ==> r == BigEndian(GetU64(r).value, 8) + GetU64(r).rest
  {
    if |r| >= 8 { BigEndianOfNumber(r[..8]); }
  }

  lemma StringWasPut(r: Bytes)
    ensures GetString(r).Ok? ==>
              r == BigEndian(|GetString(r).value|, 2) + GetString(r).value + GetString(r).rest
  {
    if GetString(r).Ok? {
      BigEndianOfNumber(r[..2]);
      var r2 := r[2..];
      var n := Number(r[..2]);
      assert r == r[..2] + r2 && r2 == r2[..n] + r2[n..];
    }
  }

  lemma PayloadWasPut(r: Bytes)
    ensures GetPayload(r).Ok? ==>
              r == BigEndian(|GetPayload(r).value|, 4) + GetPayload(r).value + GetPayload(r).rest
  {
    if GetPayload(r).Ok? {
      BigEndianOfNumber(r[..4]);
      var r2 := r[4..];
      var n := Number(r[..4]);
      assert r == r[..4] + r2 && r2 == r2[..n] + r2[n..];
    }
  }

  lemma OpenWasPut(r: Bytes)
    requires GetOpen(r).Ok?
    ensures Body(GetOpen(r).value).ok ==> r == Body(GetOpen(r).value).pushed + GetOpen(r).rest
  {
    U64WasPut(r);
    StringWasPut(GetU64(r).rest);
  }

  lemma PairWasPut(r: Bytes)
    requires GetPair(r).Ok?
    ensures var p := GetPair(r).value; r == BigEndian(p.0, 8) + BigEndian(p.1, 8) + GetPair(r).rest
  {
    U64WasPut(r);
    U64WasPut(GetU64(r).rest);
  }

  lemma AttachWasPut(r: Bytes)
    requires GetAttach(r).Ok?
    ensures Body(GetAttach(r).value).ok ==> r == Body(GetAttach(r).value).pushed + GetAttach(r).rest
  {
    PairWasPut(r);
    StringWasPut(GetPair(r).rest);
  }

  lemma DataWasPut(r: Bytes)
    requires GetData(r).Ok?
    ensures Body(GetData(r).value).ok ==> r == Body(GetData(r).value).pushed + GetData(r).rest
  {
    PairWasPut(r);
    PayloadWasPut(GetPair(r).rest);
  }

  lemma CloseWasPut(r: Bytes)
    requires GetClose(r).Ok?
    ensures Body(GetClose(r).value).ok ==> r == Body(GetClose(r).value).pushed + GetClose(r).rest
  {
    U64WasPut(r);
    var x := GetClose(r);
    var r' := GetU64(r).rest;
    assert r' == [x.value.dir] + r'[1..];
    StringWasPut(r'[1..]);
    if Body(x.value).ok {
      var e := PutString(x.value.reason);
      AfterThen([x.value.dir], e, x.rest);
      AfterThen(BigEndian(x.value.sessionID, 8), After([x.value.dir], e), x.rest);
    }
  }

  lemma PlainBodyWasPut(t: byte, r: Bytes)
    requires t in {1, 4, 6, 8, 9}
    requires GetBody(t, r).Ok?
    ensures TypeByte(GetBody(t, r).value) == t
    ensures Body(GetBody(t, r).value).ok ==> r == Body(GetBody(t, r).value).pushed + GetBody(t, r).rest
  {
    match t
    case 1 => StringWasPut(r);
    case 4 => PairWasPut(r);
    case 6 => PairWasPut(r);
    case 8 => U64WasPut(r);
    case 9 => U64WasPut(r);
  }

  lemma BodyWasPut(t: byte, r: Bytes)
    requires GetBody(t, r).Ok?
    ensures TypeByte(GetBody(t, r).value) == t
    ensures Body(GetBody(t, r).value).ok ==> r == Body(GetBody(t, r).value).pushed + GetBody(t, r).rest
  {
    match t
    case 2 => OpenWasPut(r);
    case 3 => AttachWasPut(r);
    case 5 => DataWasPut(r);
    case 7 => CloseWasPut(r);
    case _ => PlainBodyWasPut(t, r);
  }

  /** The decoder accepts nothing but encodings: whatever decodes was, byte for byte, the encoding
      of the frame followed by the rest. The exception is a string field longer than the encoder
      allows, which only the decoder takes. */
  lemma DecodedWasEncoded(r: Bytes)
    requires Decode(r).Ok?
    requires Encode(Decode(r).value).ok
    ensures r == Encode(Decode(r).value).pushed + Decode(r).rest
  {
    BodyWasPut(r[0], r[1..]);
    AfterThen([r[0]], Body(Decode(r).value), Decode(r).rest);
    assert r == [r[0]] + r[1..];
  }

  // ---------------------------------------------------------------- whole connections

  function EncodeAll(fs: seq<Frame>): Bytes {
    if fs == [] then [] else Encode(fs[0]).pushed + EncodeAll(fs[1..])
  }

  ghost predicate AllAccepted(fs: seq<Frame>) {
    forall i :: 0 <= i < |fs| ==> Encode(fs[i]).ok
  }

  datatype Reading = Reading(frames: seq<Frame>, stop: Error)

  /** The frame loop of one connection whose byte stream ends after `r`: frames until an error. */
  function ReadAll(r: Bytes): Reading
    decreases |r|
  {
    match Decode(r)
    case Err(e) => Reading([], e)
    case Ok(f, rest) =>
      var more := ReadAll(rest);
      Reading([f] + more.frames, more.stop)
  }

  lemma EncodingNonempty(f: Frame)
    ensures |Encode(f).pushed| >= 1 && Encode(f).pushed[0] == TypeByte(f)
  {
  }

  lemma HeadFirst(fs: seq<Frame>, gs: seq<Frame>)
    requires fs != []
    ensures fs + gs == [fs[0]] + (fs[1..] + gs)
  {
  }

  /** For every list of accepted frames and any tail: the reader gets exactly those frames, then
      goes on with the tail. */
  lemma {:induction false} StreamRoundTrip(fs: seq<Frame>, tail: Bytes)
    requires AllAccepted(fs)
    ensures ReadAll(EncodeAll(fs) + tail) == Reading(fs + ReadAll(tail).frames, ReadAll(tail).stop)
    decreases |fs|
  {
    if fs == [] {
      assert EncodeAll(fs) + tail == tail;
      assert fs + ReadAll(tail).frames == ReadAll(tail).frames;
    } else {
      assert EncodeAll(fs) + tail == Encode(fs[0]).pushed + (EncodeAll(fs[1..]) + tail);
      RoundTrip(fs[0], EncodeAll(fs[1..]) + tail);
      StreamRoundTrip(fs[1..], tail);
      HeadFirst(fs, ReadAll(tail).frames);
    }
  }

  /** A connection cut after any byte count delivers a prefix of the frames that were sent, each one
      intact, and then reports a truncation: loss always takes whole frames off the end. */
  lemma {:induction false} CutDeliversFramePrefix(fs: seq<Frame>, k: nat) returns (j: nat)
    requires AllAccepted(fs)
    requires k <= |EncodeAll(fs)|
    ensures j <= |fs|
    ensures ReadAll(EncodeAll(fs)[..k]) == Reading(fs[..j], Truncated)
    ensures k == |EncodeAll(fs)| ==> j == |fs|
    decreases |fs|
  {
    if fs == [] {
      return 0;
    }
    var head := Encode(fs[0]).pushed;
    var rest := EncodeAll(fs[1..]);
    if k < |head| {
      NoStrictPrefixDecodes(fs[0], k);
      assert EncodeAll(fs)[..k] == head[..k];
      j := 0;
    } else {
      assert EncodeAll(fs)[..k] == head + rest[..k - |head|];
      RoundTrip(fs[0], rest[..k - |head|]);
      var i := CutDeliversFramePrefix(fs[1..], k - |head|);
      j := i + 1;
      assert fs[..j] == [fs[0]] + fs[1..][..i];
    }
  }

  /** What an oversized DATA frame leaves in the writer. */
  lemma OversizeResidue(f: Frame, after: Bytes)
    requires f.Data? && |f.payload| > MAX_PAYLOAD
    ensures !Encode(f).ok
    ensures Encode(f).pushed + after == [5] + (BigEndian(f.sessionID, 8) + (BigEndian(f.offset, 8) + after))
  {
  }

  /** The reader takes the bytes after the left-over header for a payload length. */
  lemma OversizeRefused(f: Frame, after: Bytes)
    requires f.Data? && |f.payload| > MAX_PAYLOAD
    requires |after| >= 1 ==> after[0] >= 1
    ensures Decode(Encode(f).pushed + after) in {Err(Truncated), Err(PayloadTooBig)}
  {
    var r := BigEndian(f.sessionID, 8) + (BigEndian(f.offset, 8) + after);
    OversizeResidue(f, after);
    assert ([5] + r)[1..] == r;
    GetPutU64(f.sessionID, BigEndian(f.offset, 8) + after);
    GetPutU64(f.offset, after);
    if |after| >= 4 { TypeByteAsLength(after); }
  }

  /** A length field that starts with a type byte is at least 2^24. */
  lemma TypeByteAsLength(r: Bytes)
    requires |r| >= 4 && r[0] >= 1
    ensures Number(r[..4]) > MAX_PAYLOAD
  {
    var b := r[..4];
    assert b[..3][..2] == b[..2] && b[..2][..1] == b[..1] && b[..1][..0] == [];
    assert Number(b[..1]) == b[0];
    assert Number(b[..2]) == Number(b[..1]) * 256 + b[1];
    assert Number(b[..3]) == Number(b[..2]) * 256 + b[2];
    assert Number(b) == Number(b[..3]) * 256 + b[3];
  }

  /** After an oversized DATA frame the connection is as good as cut in that direction: the reader
      gets the frames sent before it, and whatever is sent after it is never decoded into a frame,
      because the left-over header takes the next type byte for a length beyond the maximum. */
  lemma OversizePoisonsStream(fs: seq<Frame>, big: Frame, gs: seq<Frame>)
    requires AllAccepted(fs)
    requires big.Data? && |big.payload| > MAX_PAYLOAD
    ensures ReadAll(EncodeAll(fs) + (Encode(big).pushed + EncodeAll(gs))).frames == fs
    ensures ReadAll(EncodeAll(fs) + (Encode(big).pushed + EncodeAll(gs))).stop in {Truncated, PayloadTooBig}
  {
    var after := EncodeAll(gs);
    if gs != [] { EncodingNonempty(gs[0]); }
    OversizeRefused(big, after);
    StreamRoundTrip(fs, Encode(big).pushed + after);
    assert fs + [] == fs;
  }
}
