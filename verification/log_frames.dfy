/** Docker's multiplexed log format: `decode_log_frames`. */
module LogFrames {
  import opened Wrappers

  type Byte = n: nat | n < 256

  /** Four bytes that are skipped (the stream type and padding), a length, and that many bytes. */
  datatype Frame = Frame(head: seq<Byte>, payload: seq<Byte>)

  predicate IsFrame(f: Frame) {
    |f.head| == 4 && |f.payload| < Limit(4)
  }

  /** What `k` bytes can count. */
  function Limit(k: nat): nat {
    if k == 0 then 1 else Limit(k - 1) * 256
  }

  /** The last `k` bytes of a number, most significant first. */
  function BigEndian(n: nat, k: nat): (bytes: seq<Byte>)
    ensures |bytes| == k
  {
    if k == 0 then [] else BigEndian(n / 256, k - 1) + [n % 256]
  }

  /** `u32::from_be_bytes`, for any number of bytes. */
  function FromBigEndian(b: seq<Byte>): nat {
    if b == [] then 0
    else
      var last: nat := b[|b| - 1];
      FromBigEndian(b[..|b| - 1]) * 256 + last
  }

  lemma {:induction false} NumberRoundTrip(n: nat, k: nat)
    requires n < Limit(k)
    ensures FromBigEndian(BigEndian(n, k)) == n
  {
    if k > 0 {
      NumberRoundTrip(n / 256, k - 1);
      assert BigEndian(n, k)[..k - 1] == BigEndian(n / 256, k - 1);
    }
  }

  lemma {:induction false} BytesRoundTrip(b: seq<Byte>)
    ensures BigEndian(FromBigEndian(b), |b|) == b && FromBigEndian(b) < Limit(|b|)
  {
    if b != [] {
      BytesRoundTrip(b[..|b| - 1]);
      assert FromBigEndian(b) / 256 == FromBigEndian(b[..|b| - 1]);
      assert b == b[..|b| - 1] + [b[|b| - 1]];
    }
  }

  function Encode(f: Frame): seq<Byte>
    requires IsFrame(f)
  {
    f.head + BigEndian(|f.payload|, 4) + f.payload
  }

  function EncodeAll(frames: seq<Frame>): seq<Byte>
    requires forall f <- frames :: IsFrame(f)
  {
    if frames == [] then [] else Encode(frames[0]) + EncodeAll(frames[1..])
  }

  /** The end of the frame at the start of `bytes`, if the whole frame is there. */
  function FrameEnd(bytes: seq<Byte>): Option<nat> {
    if |bytes| < 8 || 8 + FromBigEndian(bytes[4..8]) > |bytes| then None else Some(8 + FromBigEndian(bytes[4..8]))
  }

  /** The frames that make up `bytes`, if it consists of complete frames. */
  function Split(bytes: seq<Byte>): Option<seq<Frame>> {
    if bytes == [] then Some([])
    else if FrameEnd(bytes).None? then None
    else
      var end := FrameEnd(bytes).value;
      match Split(bytes[end..])
      case None => None
      case Some(rest) => Some([Frame(bytes[..4], bytes[8..end])] + rest)
  }

  function Prepended(frames: seq<Frame>, rest: Option<seq<Frame>>): Option<seq<Frame>> {
    match rest
    case None => None
    case Some(more) => Some(frames + more)
  }

  lemma {:induction false} SplitOfEncoded(frames: seq<Frame>)
    requires forall f <- frames :: IsFrame(f)
    ensures Split(EncodeAll(frames)) == Some(frames)
  {
    if frames != [] {
      var f, rest := frames[0], EncodeAll(frames[1..]);
      var bytes := Encode(f) + rest;
      NumberRoundTrip(|f.payload|, 4);
      assert bytes[4..8] == BigEndian(|f.payload|, 4);
      var end := 8 + |f.payload|;
      assert bytes[..4] == f.head && bytes[8..end] == f.payload && bytes[end..] == rest;
      SplitOfEncoded(frames[1..]);
      assert frames == [f] + frames[1..];
    }
  }

  lemma EncodedFirst(bytes: seq<Byte>, end: nat)
    requires FrameEnd(bytes) == Some(end)
    ensures var f := Frame(bytes[..4], bytes[8..end]); IsFrame(f) && Encode(f) == bytes[..end]
  {
    BytesRoundTrip(bytes[4..8]);
    assert bytes[..4] + bytes[4..8] + bytes[8..end] == bytes[..end];
  }

  lemma {:induction false} EncodedOfSplit(bytes: seq<Byte>)
    requires Split(bytes).Some?
    ensures (forall f <- Split(bytes).value :: IsFrame(f)) && EncodeAll(Split(bytes).value) == bytes
    decreases |bytes|
  {
    if bytes != [] {
      var end := FrameEnd(bytes).value;
      EncodedOfSplit(bytes[end..]);
      EncodedFirst(bytes, end);
      assert Split(bytes).value[1..] == Split(bytes[end..]).value;
      assert bytes == bytes[..end] + bytes[end..];
    }
  }

  /** Bytes are the encoding of some frames exactly when they split, and then of those frames only. */
  lemma SplitIsUnique(bytes: seq<Byte>, frames: seq<Frame>)
    requires forall f <- frames :: IsFrame(f)
    ensures EncodeAll(frames) == bytes <==> Split(bytes) == Some(frames)
  {
    SplitOfEncoded(frames);
    if Split(bytes) == Some(frames) {
      EncodedOfSplit(bytes);
    }
  }

  function Texts(lossy: seq<Byte> -> string, frames: seq<Frame>): string {
    if frames == [] then "" else Texts(lossy, frames[..|frames| - 1]) + lossy(frames[|frames| - 1].payload)
  }

  /** The first `offset` bytes are the given frames. */
  ghost predicate SplitSoFar(bytes: seq<Byte>, offset: nat, frames: seq<Frame>) {
    offset <= |bytes| && (offset == 0 <==> frames == []) && Split(bytes) == Prepended(frames, Split(bytes[offset..]))
  }

  lemma NothingSplit(bytes: seq<Byte>)
    ensures SplitSoFar(bytes, 0, [])
  {
    assert bytes[0..] == bytes;
    if Split(bytes).Some? {
      assert [] + Split(bytes).value == Split(bytes).value;
    }
  }

  lemma AllSplit(bytes: seq<Byte>, offset: nat, frames: seq<Frame>)
    requires SplitSoFar(bytes, offset, frames)
    ensures offset == |bytes| ==> Split(bytes) == Some(frames)
    ensures offset < |bytes| && FrameEnd(bytes[offset..]).None? ==> Split(bytes).None?
  {
    if offset == |bytes| {
      assert bytes[offset..] == [] && frames + [] == frames;
    } else {
      assert bytes[offset..] != [];
    }
  }

  /**
   * The decoded payloads, exactly when the input is one or more complete frames; the whole input as
   * plain text otherwise. `lossy` is `String::from_utf8_lossy`.
   */
  method DecodeLogFrames(bytes: seq<Byte>, lossy: seq<Byte> -> string) returns (text: string)
    ensures text == if bytes != [] && Split(bytes).Some? then Texts(lossy, Split(bytes).value) else lossy(bytes)
  {
    var output, offset, parsedFrame := "", 0, false;
    ghost var frames: seq<Frame> := [];
    NothingSplit(bytes);
    while |bytes| - offset >= 8
      invariant SplitSoFar(bytes, offset, frames) && parsedFrame == (offset > 0) && output == Texts(lossy, frames)
      decreases |bytes| - offset
    {
      var frameLen := FromBigEndian([bytes[offset + 4], bytes[offset + 5], bytes[offset + 6], bytes[offset + 7]]);
      var frameStart := offset + 8;
      var frameEnd := frameStart + frameLen;
      LengthAt(bytes, offset);
      if frameEnd > |bytes| {
        break;
      }
      ghost var f := Frame(bytes[offset..][..4], bytes[frameStart..frameEnd]);
      FrameAt(bytes, offset, f, frames);
      assert (frames + [f])[..|frames|] == frames;
      output := output + lossy(bytes[frameStart..frameEnd]);
      frames := frames + [f];
      offset := frameEnd;
      parsedFrame := true;
    }
    AllSplit(bytes, offset, frames);
    if parsedFrame && offset == |bytes| {
      text := output;
    } else {
      text := lossy(bytes);
    }
  }

  lemma OneFrame(rest: seq<Byte>, f: Frame, frames: seq<Frame>)
    requires FrameEnd(rest).Some? && f == Frame(rest[..4], rest[8..FrameEnd(rest).value])
    ensures Prepended(frames, Split(rest)) == Prepended(frames + [f], Split(rest[FrameEnd(rest).value..]))
  {
    var more := Split(rest[FrameEnd(rest).value..]);
    if more.Some? {
      assert frames + ([f] + more.value) == frames + [f] + more.value;
    }
  }

  lemma LengthAt(bytes: seq<Byte>, offset: nat)
    requires offset + 8 <= |bytes|
    ensures var length := FromBigEndian([bytes[offset + 4], bytes[offset + 5], bytes[offset + 6], bytes[offset + 7]]);
            FrameEnd(bytes[offset..]) == if offset + 8 + length > |bytes| then None else Some(8 + length)
  {
    assert bytes[offset..][4..8] == [bytes[offset + 4], bytes[offset + 5], bytes[offset + 6], bytes[offset + 7]];
  }

  lemma FrameAt(bytes: seq<Byte>, offset: nat, f: Frame, frames: seq<Frame>)
    requires SplitSoFar(bytes, offset, frames) && FrameEnd(bytes[offset..]).Some?
    requires var end := offset + FrameEnd(bytes[offset..]).value; f == Frame(bytes[offset..][..4], bytes[offset + 8..end])
    ensures SplitSoFar(bytes, offset + FrameEnd(bytes[offset..]).value, frames + [f])
  {
    var rest, length := bytes[offset..], FrameEnd(bytes[offset..]).value;
    assert rest[8..length] == f.payload && rest[length..] == bytes[offset + length..];
    OneFrame(rest, f, frames);
  }

  /** The length in a head of eight bytes: the last four, the most significant first. */
  lemma LengthOfHead(a: Byte, b: Byte, c: Byte, d: Byte)
    ensures FromBigEndian([a, b, c, d]) == 0x100_0000 * a + 0x1_0000 * b + 0x100 * c + d
  {
    assert [a][..0] == [] && FromBigEndian([a]) == a;
    assert [a, b][..1] == [a] && FromBigEndian([a, b]) == 0x100 * a + b;
    assert [a, b, c][..2] == [a, b] && FromBigEndian([a, b, c]) == 0x1_0000 * a + 0x100 * b + c;
    assert [a, b, c, d][..3] == [a, b, c];
  }

  /** The text of the frames is that of their payloads, one after another. */
  lemma {:induction false} TextsInOrder(lossy: seq<Byte> -> string, before: seq<Frame>, after: seq<Frame>)
    ensures Texts(lossy, before + after) == Texts(lossy, before) + Texts(lossy, after)
    decreases |after|
  {
    hide Texts;
    if after == [] {
      assert before + after == before;
      TextOfNone(lossy);
    } else {
      var init, last := after[..|after| - 1], after[|after| - 1];
      TextsInOrder(lossy, before, init);
      assert after == init + [last] && before + after == before + init + [last];
      TextOfOneMore(lossy, init, last);
      TextOfOneMore(lossy, before + init, last);
    }
  }

  lemma TextOfNone(lossy: seq<Byte> -> string)
    ensures Texts(lossy, []) == ""
  {
  }

  lemma TextOfOneMore(lossy: seq<Byte> -> string, frames: seq<Frame>, f: Frame)
    ensures Texts(lossy, frames + [f]) == Texts(lossy, frames) + lossy(f.payload)
  {
    assert (frames + [f])[..|frames|] == frames;
  }

  /** Encoding any frames and decoding the result gives their payloads. */
  lemma DecodedEncoding(frames: seq<Frame>, bytes: seq<Byte>)
    requires frames != [] && (forall f <- frames :: IsFrame(f)) && bytes == EncodeAll(frames)
    ensures bytes != [] && Split(bytes) == Some(frames)
  {
    SplitOfEncoded(frames);
  }
}
