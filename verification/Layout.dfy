/** Where each field of a frame lies in its encoding (internal/tunnel/wire.go), byte by byte. */
module Layout {
  import opened Streams
  import opened Wire

  /** The first byte of a number is its most significant one. */
  lemma {:induction false} MostSignificantFirst(bs: Bytes)
    requires bs != []
    ensures Number(bs) == bs[0] * Pow256(|bs| - 1) + Number(bs[1..])
    decreases |bs|
  {
    var n := |bs| - 1;
    if n == 0 {
      assert bs[..0] == [] && bs[1..] == [];
    } else {
      hide Pow256;
      MostSignificantFirst(bs[..n]);
      NextPower(n - 1);
      assert bs[..n][0] == bs[0] && bs[..n][1..] == bs[1..][..n - 1] && bs[1..][n - 1] == bs[n];
      calc {
        Number(bs);
        Number(bs[..n]) * 256 + bs[n];
        (bs[0] * Pow256(n - 1) + Number(bs[1..][..n - 1])) * 256 + bs[n];
        bs[0] * (256 * Pow256(n - 1)) + (Number(bs[1..][..n - 1]) * 256 + bs[n]);
      }
    }
  }

  lemma NextPower(n: nat)
    ensures Pow256(n + 1) == 256 * Pow256(n)
  {
  }

  /** The number at a position of the encoding. */
  predicate NumberAt(bs: Bytes, at: nat, width: nat, v: nat) {
    at + width <= |bs| && Number(bs[at..at + width]) == v
  }

  predicate TailAt(bs: Bytes, at: nat, tail: Bytes) { at <= |bs| && bs[at..] == tail }

  lemma PutsU64(head: Bytes, v: u64, tail: Bytes)
    ensures NumberAt(head + BigEndian(v, 8) + tail, |head|, 8, v)
  {
    Widths();
    NumberOfBigEndian(v, 8);
    assert (head + BigEndian(v, 8) + tail)[|head|..|head| + 8] == BigEndian(v, 8);
  }

  lemma PutsString(head: Bytes, s: Bytes)
    requires |s| <= MAX_STRING
    ensures var bs := head + PutString(s).pushed; NumberAt(bs, |head|, 2, |s|) && TailAt(bs, |head| + 2, s)
  {
    Widths();
    NumberOfBigEndian(|s|, 2);
    var bs := head + PutString(s).pushed;
    assert bs[|head|..|head| + 2] == BigEndian(|s|, 2);
  }

  lemma PutsPayload(head: Bytes, p: Bytes)
    requires |p| <= MAX_PAYLOAD
    ensures var bs := head + PutPayload(p).pushed; NumberAt(bs, |head|, 4, |p|) && TailAt(bs, |head| + 4, p)
  {
    Widths();
    NumberOfBigEndian(|p|, 4);
    var bs := head + PutPayload(p).pushed;
    assert bs[|head|..|head| + 4] == BigEndian(|p|, 4);
  }

  /** The encoding of every accepted frame: a type byte, numbers with the most significant byte first, strings
      behind two bytes of length and payloads behind four. */
  ghost predicate LaidOut(f: Frame, bs: Bytes) {
    bs != [] &&
    match f
    case Hello(actorID) => bs[0] == 1 && NumberAt(bs, 1, 2, |actorID|) && TailAt(bs, 3, actorID)
    case Open(sid, target) =>
      bs[0] == 2 && NumberAt(bs, 1, 8, sid) && NumberAt(bs, 9, 2, |target|) && TailAt(bs, 11, target)
    case Attach(sid, offset, target) =>
      && bs[0] == 3 && NumberAt(bs, 1, 8, sid) && NumberAt(bs, 9, 8, offset)
      && NumberAt(bs, 17, 2, |target|) && TailAt(bs, 19, target)
    case AttachOK(sid, offset) => bs[0] == 4 && NumberAt(bs, 1, 8, sid) && NumberAt(bs, 9, 8, offset) && |bs| == 17
    case Data(sid, offset, payload) =>
      && bs[0] == 5 && NumberAt(bs, 1, 8, sid) && NumberAt(bs, 9, 8, offset)
      && NumberAt(bs, 17, 4, |payload|) && TailAt(bs, 21, payload)
    case Ack(sid, offset) => bs[0] == 6 && NumberAt(bs, 1, 8, sid) && NumberAt(bs, 9, 8, offset) && |bs| == 17
    case Close(sid, dir, reason) =>
      && bs[0] == 7 && NumberAt(bs, 1, 8, sid) && |bs| > 9 && bs[9] == dir
      && NumberAt(bs, 10, 2, |reason|) && TailAt(bs, 12, reason)
    case Ping(nonce) => bs[0] == 8 && NumberAt(bs, 1, 8, nonce) && |bs| == 9
    case Pong(nonce) => bs[0] == 9 && NumberAt(bs, 1, 8, nonce) && |bs| == 9
  }

  lemma EncodingIsLaidOut(f: Frame)
    requires Encode(f).ok
    ensures LaidOut(f, Encode(f).pushed)
  {
    hide BigEndian, NumberAt, TailAt, PutString, PutPayload;
    var t := [TypeByte(f)];
    match f
    case Hello(actorID) =>
      FitsIff(actorID, []);
      PutsString(t, actorID);
    case Open(sid, target) =>
      FitsIff(target, []);
      OpenIsLaidOut(t, sid, target);
    case Attach(sid, offset, target) =>
      FitsIff(target, []);
      OffsetIsLaidOut(t, sid, offset, PutString(target).pushed);
      PutsString(t + BigEndian(sid, 8) + BigEndian(offset, 8), target);
    case Data(sid, offset, payload) =>
      FitsIff([], payload);
      OffsetIsLaidOut(t, sid, offset, PutPayload(payload).pushed);
      PutsPayload(t + BigEndian(sid, 8) + BigEndian(offset, 8), payload);
    case AttachOK(sid, offset) => PairIsLaidOut(t, sid, offset);
    case Ack(sid, offset) => PairIsLaidOut(t, sid, offset);
    case Close(sid, dir, reason) =>
      FitsIff(reason, []);
      CloseIsLaidOut(t, sid, dir, reason);
    case Ping(nonce) => OneIsLaidOut(t, nonce);
    case Pong(nonce) => OneIsLaidOut(t, nonce);
  }

  lemma OpenIsLaidOut(t: Bytes, sid: u64, target: Bytes)
    requires |t| == 1 && |target| <= MAX_STRING
    ensures var bs := t + (BigEndian(sid, 8) + PutString(target).pushed);
            NumberAt(bs, 1, 8, sid) && NumberAt(bs, 9, 2, |target|) && TailAt(bs, 11, target)
  {
    hide NumberAt, TailAt, PutString;
    var id, s := BigEndian(sid, 8), PutString(target).pushed;
    assert t + (id + s) == t + id + s;
    PutsU64(t, sid, s);
    PutsString(t + id, target);
  }

  lemma OffsetIsLaidOut(t: Bytes, sid: u64, offset: u64, rest: Bytes)
    requires |t| == 1
    ensures var id, o := BigEndian(sid, 8), BigEndian(offset, 8);
            var bs := t + (id + (o + rest));
            bs == t + id + o + rest && NumberAt(bs, 1, 8, sid) && NumberAt(bs, 9, 8, offset)
  {
    hide NumberAt;
    var id, o := BigEndian(sid, 8), BigEndian(offset, 8);
    assert t + (id + (o + rest)) == t + id + (o + rest) == t + id + o + rest;
    PutsU64(t, sid, o + rest);
    PutsU64(t + id, offset, rest);
  }

  lemma CloseIsLaidOut(t: Bytes, sid: u64, dir: u8, reason: Bytes)
    requires |t| == 1 && |reason| <= MAX_STRING
    ensures var bs := t + (BigEndian(sid, 8) + ([dir] + PutString(reason).pushed));
            && NumberAt(bs, 1, 8, sid) && |bs| > 9 && bs[9] == dir
            && NumberAt(bs, 10, 2, |reason|) && TailAt(bs, 12, reason)
  {
    hide NumberAt, TailAt, PutString;
    var id, d, s := BigEndian(sid, 8), [dir], PutString(reason).pushed;
    assert t + (id + (d + s)) == t + id + (d + s) == t + id + d + s;
    PutsU64(t, sid, d + s);
    PutsString(t + id + d, reason);
  }

  lemma FitsIff(s: Bytes, p: Bytes)
    ensures PutString(s).ok <==> |s| <= MAX_STRING
    ensures PutPayload(p).ok <==> |p| <= MAX_PAYLOAD
  {
  }

  lemma PairIsLaidOut(t: Bytes, sid: u64, offset: u64)
    requires |t| == 1
    ensures var bs := t + (BigEndian(sid, 8) + BigEndian(offset, 8));
            NumberAt(bs, 1, 8, sid) && NumberAt(bs, 9, 8, offset) && |bs| == 17
  {
    hide NumberAt;
    var id, o := BigEndian(sid, 8), BigEndian(offset, 8);
    assert t + (id + o) == t + id + o == (t + id) + o + [];
    PutsU64(t, sid, o);
    PutsU64(t + id, offset, []);
  }

  lemma OneIsLaidOut(t: Bytes, nonce: u64)
    requires |t| == 1
    ensures var bs := t + BigEndian(nonce, 8); NumberAt(bs, 1, 8, nonce) && |bs| == 9
  {
    hide NumberAt;
    assert t + BigEndian(nonce, 8) == t + BigEndian(nonce, 8) + [];
    PutsU64(t, nonce, []);
  }

  // ---------------------------------------------------------------- what the decoder refuses

  /** The decoder refuses a frame for its type if and only if that is none of the nine, and for its size if and
      only if it is a DATA frame whose four bytes of length say more than the limit. */
  lemma RefusedIff(r: Bytes)
    ensures Decode(r) == Err(UnknownType) <==> r != [] && (r[0] == 0 || r[0] > 9)
    ensures Decode(r) == Err(PayloadTooBig) <==> |r| >= 21 && r[0] == 5 && Number(r[17..21]) > MAX_PAYLOAD
  {
    hide Number;
    if r != [] && r[0] == 5 { DataRefusedIff(r[1..]); }
    if |r| >= 21 { assert r[1..][16..20] == r[17..21]; }
  }

  lemma DataRefusedIff(r: Bytes)
    ensures GetData(r) != Err(UnknownType)
    ensures GetData(r) == Err(PayloadTooBig) <==> |r| >= 20 && Number(r[16..20]) > MAX_PAYLOAD
  {
    hide Number;
    if |r| >= 20 {
      assert r[8..][8..] == r[16..] && r[16..][..4] == r[16..20];
    }
  }

  lemma LongString(s: Bytes, tail: Bytes)
    requires |s| < 0x1_0000
    ensures GetString(BigEndian(|s|, 2) + (s + tail)) == Ok(s, tail)
  {
    hide Number, BigEndian, Pow256, Take;
    Widths();
    NumberOfBigEndian(|s|, 2);
    TakeConcat(BigEndian(|s|, 2), s + tail);
    TakeConcat(s, tail);
  }

  /** The decoder takes strings that the encoder would refuse, up to what two bytes of length can say. */
  lemma LongStringsDecode(s: Bytes, tail: Bytes)
    requires |s| < 0x1_0000
    ensures Decode([1] + (BigEndian(|s|, 2) + (s + tail))) == Ok(Hello(s), tail)
  {
    hide BigEndian, GetString;
    var rest := BigEndian(|s|, 2) + (s + tail);
    assert ([1] + rest)[0] == 1 && ([1] + rest)[1..] == rest;
    LongString(s, tail);
  }
}
