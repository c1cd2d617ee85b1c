/** Frames: a 32-bit length, a type tag and a payload; and streams of them. */
module Codec {
  import opened Bytes
  import opened Wire
  import opened Messages

  function FrameOf(m: Message): (f: Bytes)
    requires Encodable(m)
    ensures f != []
  {
    PutU8(Tag(m), PutBody(m, []))
  }

  /** The length in front of a frame wraps at 32 bits. */
  function Header(frame: Bytes): (h: Bytes)
    ensures |h| == 4
  {
    U32Bytes(|frame| % 0x1_0000_0000)
  }

  function Framed(frame: Bytes): Bytes
  {
    Header(frame) + frame
  }

  /** A message that cannot be encoded puts nothing on the wire. */
  function Written(m: Message): Bytes
  {
    if Encodable(m) then Framed(FrameOf(m)) else []
  }

  function DecodeFrame(frame: Bytes): Outcome<Message>
    requires frame != []
  {
    match GetBody(frame[0], frame[1..])
    case Got(m, _) => Ok(m)
    case Failed(e, _) => Err(e)
  }

  /** The next message of a stream, and the stream after it. */
  function ReadFrame(b: Bytes): (Outcome<Message>, Bytes)
  {
    match GetU32(b)
    case Failed(e, rest) => (Err(e), rest)
    case Got(n, rest) =>
      if n == 0 then (Err(EmptyFrame), rest)
      else if n > MAX_FRAME then (Err(FrameTooLarge), rest)
      else if |rest| < n then (Err(ShortRead(rest)), [])
      else (DecodeFrame(rest[..n]), rest[n..])
  }

  predicate Fits(frame: Bytes)
  {
    1 <= |frame| <= MAX_FRAME
  }

  // --- One frame -------------------------------------------------------------

  lemma HeaderBack(frame: Bytes, rest: Bytes)
    ensures GetU32(Framed(frame) + rest) == Got(|frame| % 0x1_0000_0000, frame + rest)
  {
    TakeBack(Header(frame), frame + rest);
    assert Framed(frame) + rest == Header(frame) + (frame + rest);
  }

  /**
   * Resynchronisation: whatever is in a frame of legal size, well formed or not,
   * exactly that frame is consumed, and nothing after it is looked at.
   */
  lemma FrameConsumed(frame: Bytes, rest: Bytes)
    requires Fits(frame)
    ensures ReadFrame(Framed(frame) + rest) == (DecodeFrame(frame), rest)
  {
    hide DecodeFrame, GetU32, Framed;
    HeaderBack(frame, rest);
    TakeBack(frame, rest);
  }

  /** Decoding undoes encoding, and ignores what follows in the frame. */
  lemma DecodeBack(m: Message, k: Bytes)
    requires Encodable(m) && |PutBody(m, k)| < MAX_FRAME
    ensures DecodeFrame(PutU8(Tag(m), PutBody(m, k))) == Ok(m)
  {
    hide GetBody, PutBody, Encodable, Tag;
    BodyBack(m, k);
    assert PutU8(Tag(m), PutBody(m, k))[1..] == PutBody(m, k);
  }

  /** A message is read back, and the rest with it, exactly when its frame is not too long for the reader. */
  lemma ReadBack(m: Message, rest: Bytes)
    requires Encodable(m)
    ensures ReadFrame(Written(m) + rest) == (Ok(m), rest) <==> |FrameOf(m)| <= 0x100_0000
  {
    hide DecodeFrame, PutBody, Encodable, Tag, GetU32, Framed;
    var frame := FrameOf(m);
    if |frame| <= MAX_FRAME {
      FrameConsumed(frame, rest);
      DecodeBack(m, []);
    } else {
      HeaderBack(frame, rest);
    }
  }

  /** Output is read back exactly up to this size, five bytes under the limit on frames. */
  lemma OutputReadBack(data: Bytes, rest: Bytes)
    ensures ReadFrame(Written(Output(data)) + rest) == (Ok(Output(data)), rest) <==> |data| <= 0x100_0000 - 5
  {
    hide ReadFrame, Written;
    ReadBack(Output(data), rest);
  }

  /** So there are messages that are written without an error and cannot be read. */
  lemma WrittenButUnreadable(rest: Bytes) returns (m: Message)
    ensures Encodable(m) && ReadFrame(Written(m) + rest) != (Ok(m), rest)
  {
    var data: Bytes := seq(MAX_FRAME, _ => 0);
    m := Output(data);
    hide ReadFrame, Written;
    OutputReadBack(data, rest);
  }

  /**
   * The reader accepts frames the writer never makes: any byte but zero for true, and
   * anything after the payload. Of all these frames the writer makes one.
   */
  lemma ReaderIsLenient(v: byte, k: Bytes)
    requires v != 0
    ensures DecodeFrame([0x05, v] + k) == Ok(List(true))
    ensures [0x05, v] + k == FrameOf(List(true)) <==> v == 1 && k == []
  {
    var frame := [0x05, v] + k;
    assert frame[1..] == [v] + k;
    TakeBack([v], k);
    assert FrameOf(List(true)) == [0x05, 1];
    if frame == [0x05, 1] {
      assert frame[1] == v && |frame| == 2 + |k|;
    }
  }

  // --- Streams ---------------------------------------------------------------

  function FramesOf(ms: seq<Message>): (frames: seq<Bytes>)
    requires forall m <- ms :: Encodable(m)
    ensures |frames| == |ms| && forall i :: 0 <= i < |ms| ==> frames[i] == FrameOf(ms[i])
  {
    seq(|ms|, i requires 0 <= i < |ms| => FrameOf(ms[i]))
  }

  function ReadMany(n: nat, b: Bytes): (seq<Outcome<Message>>, Bytes)
  {
    if n == 0 then ([], b)
    else
      var (first, b1) := ReadFrame(b);
      var (others, b2) := ReadMany(n - 1, b1);
      ([first] + others, b2)
  }

  /** A stream of frames is read frame by frame; a bad frame spoils only itself. */
  lemma {:induction false} StreamInStep(frames: seq<Bytes>, rest: Bytes)
    requires forall f <- frames :: Fits(f)
    ensures var (read, left) := ReadMany(|frames|, Cat(Framed, frames) + rest);
            left == rest && |read| == |frames|
            && forall i :: 0 <= i < |frames| ==> Fits(frames[i]) && read[i] == DecodeFrame(frames[i])
  {
    hide DecodeFrame, ReadFrame, Framed;
    if frames != [] {
      var tail := Cat(Framed, frames[1..]) + rest;
      assert Cat(Framed, frames) + rest == Framed(frames[0]) + tail;
      FrameConsumed(frames[0], tail);
      StreamInStep(frames[1..], rest);
    } else {
      assert [] + rest == rest;
    }
  }

  /** The messages written one after the other are the messages read. */
  lemma MessagesBack(ms: seq<Message>, rest: Bytes)
    requires forall m <- ms :: Encodable(m) && |FrameOf(m)| <= MAX_FRAME
    ensures var (read, left) := ReadMany(|ms|, Cat(Framed, FramesOf(ms)) + rest);
            left == rest && |read| == |ms| && forall i :: 0 <= i < |ms| ==> read[i] == Ok(ms[i])
  {
    hide DecodeFrame, PutBody, Encodable, Tag, ReadMany, Framed;
    StreamInStep(FramesOf(ms), rest);
    forall i | 0 <= i < |ms| ensures DecodeFrame(FrameOf(ms[i])) == Ok(ms[i]) {
      DecodeBack(ms[i], []);
    }
  }
}
