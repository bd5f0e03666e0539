/** The replay buffer of internal/tunnel/buffer.go: the un-acknowledged window of one direction. */
module ReplayBuffers {
  import opened Streams

  /** The value of a replay buffer: `bytes` are the retained bytes, the first one at offset `base`. */
  datatype Window = Window(base: nat, bytes: Bytes, max: nat) {

    function End(): nat { base + |bytes| }

    function Free(): int { max - |bytes| }

    function Add(p: Bytes): Window { this.(bytes := bytes + p) }

    function TrimTo(offset: nat): Window {
      if offset <= base then this
      else if offset >= End() then this.(base := End(), bytes := [])
      else this.(base := offset, bytes := bytes[offset - base..])
    }

    predicate Has(offset: nat) { base <= offset <= End() }

    function From(offset: nat): Bytes
      requires Has(offset)
    {
      bytes[offset - base..]
    }

    /** The buffer retains exactly the part of `stream` from `base` to its end. */
    ghost predicate Retains(stream: Bytes) {
      base <= |stream| && bytes == stream[base..] && |bytes| <= max
    }
  }

  function Empty(max: nat): Window { Window(0, [], max) }

  lemma AddRetains(w: Window, stream: Bytes, p: Bytes)
    requires w.Retains(stream)
    requires |p| <= w.Free()
    ensures w.Add(p).Retains(stream + p)
  {
  }

  lemma TrimRetains(w: Window, stream: Bytes, offset: nat)
    requires w.Retains(stream)
    ensures w.TrimTo(offset).Retains(stream)
    ensures w.base <= w.TrimTo(offset).base
    ensures w.TrimTo(offset).base <= w.base || w.TrimTo(offset).base <= offset
    ensures w.TrimTo(offset).End() == w.End()
    ensures offset <= w.End() ==> offset <= w.TrimTo(offset).base
  {
  }

  /** A replay is the stream's own tail. */
  lemma FromIsTail(w: Window, stream: Bytes, offset: nat)
    requires w.Retains(stream)
    requires w.Has(offset)
    ensures w.From(offset) == stream[offset..]
    ensures SliceAt(stream, offset, w.From(offset))
  {
  }

  datatype Op = Append(p: Bytes) | Trim(offset: nat)

  /** One call; an Append that would exceed the cap changes nothing (ErrFull). */
  function Apply(w: Window, op: Op): Window {
    match op
    case Append(p) => if |w.bytes| + |p| > w.max then w else w.Add(p)
    case Trim(offset) => w.TrimTo(offset)
  }

  function ApplyAll(w: Window, ops: seq<Op>): Window
    decreases |ops|
  {
    if ops == [] then w else Apply(ApplyAll(w, ops[..|ops| - 1]), ops[|ops| - 1])
  }

  /** The bytes that the successful Append calls of a history have put in. */
  function Accepted(w: Window, ops: seq<Op>): Bytes
    decreases |ops|
  {
    if ops == [] then []
    else
      var before := ApplyAll(w, ops[..|ops| - 1]);
      var op := ops[|ops| - 1];
      Accepted(w, ops[..|ops| - 1]) +
      (if op.Append? && |before.bytes| + |op.p| <= before.max then op.p else [])
  }

  /** Over every history of calls the buffer is the window [base, End) of everything accepted so
      far, within its cap, and neither base nor End ever moves back. */
  lemma {:induction false} BufferIsWindow(max: nat, ops: seq<Op>)
    ensures ApplyAll(Empty(max), ops).Retains(Accepted(Empty(max), ops))
    ensures ApplyAll(Empty(max), ops).max == max
    ensures ops != [] ==>
              var before := ApplyAll(Empty(max), ops[..|ops| - 1]);
              before.base <= ApplyAll(Empty(max), ops).base && before.End() <= ApplyAll(Empty(max), ops).End()
    decreases |ops|
  {
    if ops != [] {
      var init := ops[..|ops| - 1];
      BufferIsWindow(max, init);
      var before := ApplyAll(Empty(max), init);
      var stream := Accepted(Empty(max), init);
      match ops[|ops| - 1] {
        case Append(p) =>
          if |before.bytes| + |p| <= max { AddRetains(before, stream, p); } else { assert stream + [] == stream; }
        case Trim(offset) =>
          TrimRetains(before, stream, offset);
          assert stream + [] == stream;
      }
    }
  }

  class ReplayBuffer {
    var base: nat
    var buf: Bytes
    const max: nat
    /** Everything ever appended. */
    ghost var stream: Bytes

    ghost predicate Valid()
      reads this
    {
      Value().Retains(stream)
    }

    function Value(): Window
      reads this
    {
      Window(base, buf, max)
    }

    constructor (max: nat)
      ensures Valid() && stream == [] && Value() == Empty(max)
    {
      this.base, this.buf, this.max, this.stream := 0, [], max, [];
    }

    /** `ok` is false for ErrFull. */
    method Append(p: Bytes) returns (ok: bool)
      requires Valid()
      modifies this
      ensures Valid()
      ensures ok <==> |p| <= old(Value().Free())
      ensures ok ==> stream == old(stream) + p && Value() == old(Value()).Add(p)
      ensures !ok ==> stream == old(stream) && Value() == old(Value())
    {
      if |buf| + |p| > max {
        return false;
      }
      AddRetains(Value(), stream, p);
      buf := buf + p;
      stream := stream + p;
      ok := true;
    }

    method TrimTo(offset: nat)
      requires Valid()
      modifies this`base, this`buf
      ensures Valid()
      ensures Value() == old(Value()).TrimTo(offset)
      ensures base == if offset <= old(base) then old(base) else if offset < |stream| then offset else |stream|
    {
      TrimRetains(Value(), stream, offset);
      if offset <= base {
        return;
      }
      if offset >= base + |buf| {
        base := base + |buf|;
        buf := [];
        return;
      }
      var n := offset - base;
      buf := buf[n..];
      base := offset;
    }

    /** Replays the tail of the appended stream, or refuses: below base the bytes were dropped,
        beyond the end they never existed. */
    method From(offset: nat) returns (tail: Option<Bytes>)
      requires Valid()
      ensures tail.Some? <==> base <= offset <= |stream|
      ensures tail.Some? ==> tail.value == stream[offset..] && Value().Has(offset) && tail.value == Value().From(offset)
    {
      if offset < base {
        return None;
      }
      if offset > base + |buf| {
        return None;
      }
      FromIsTail(Value(), stream, offset);
      tail := Some(buf[offset - base..]);
    }
  }
}
