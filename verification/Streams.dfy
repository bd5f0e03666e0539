/** Byte streams addressed by cumulative offset, and the rule by which a receiver takes new bytes. */
module Streams {

  type byte = x: int | 0 <= x < 256
  type Bytes = seq<byte>

  datatype Option<+T> = None | Some(value: T)

  /** `p` is what `stream` holds from `offset` on, for `|p|` bytes. */
  ghost predicate SliceAt(stream: Bytes, offset: nat, p: Bytes) {
    offset + |p| <= |stream| && stream[offset..offset + |p|] == p
  }

  /** Both receivers (broker onData, sidecar deliverDown) take a DATA payload only if it starts at
      or before the mark they have reached and, when it starts before, still holds a new byte. */
  predicate Accepts(mark: nat, offset: nat, p: Bytes) {
    offset == mark || offset < mark < offset + |p|
  }

  /** The bytes of an accepted payload that lie beyond the mark. */
  function Fresh(mark: nat, offset: nat, p: Bytes): Bytes
    requires Accepts(mark, offset, p)
  {
    p[mark - offset..]
  }

  function NextMark(mark: nat, offset: nat, p: Bytes): nat {
    if Accepts(mark, offset, p) then offset + |p| else mark
  }

  /** Accepting a true slice of the stream extends a prefix of that stream to a longer prefix:
      duplicates are cut away exactly and nothing is skipped. */
  lemma AcceptExtendsPrefix(got: Bytes, stream: Bytes, offset: nat, p: Bytes)
    requires got <= stream
    requires SliceAt(stream, offset, p)
    requires Accepts(|got|, offset, p)
    ensures got + Fresh(|got|, offset, p) <= stream
    ensures |got + Fresh(|got|, offset, p)| == NextMark(|got|, offset, p)
  {
  }

}
