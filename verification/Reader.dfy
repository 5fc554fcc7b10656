/**
 The incremental reader: a growing buffer filled from a stream in reads of any size, cut into
 frames by their length prefix.
 */
module FrameReader {
  import opened Wrappers
  import opened Wire

  // ---- Length prefixes ----

  const MAX_FRAME_LEN: nat := 65528

  /** The word count of a frame of `len` bytes, truncated to 16 bits. */
  function CompressFrameLen(len: nat): u16 {
    len / 8 % 0x1_0000
  }

  /** `Overflowed`: 16-bit arithmetic on the prefix left its range, in checked builds a panic. */
  datatype SliceLen = Elems(n: nat) | BufferShort(needed: nat) | Overflowed

  /** The number of payload bytes of the frame at the front of the buffer. */
  function GetSliceLen(buf: Bytes): SliceLen {
    if |buf| < 2 then BufferShort(HEADER_LEN - |buf|)
    else
      var frameLen := Un16(buf, 0) * 8;
      if frameLen >= 0x1_0000 then Overflowed
      else if frameLen > |buf| then BufferShort(frameLen - |buf|)
      else if frameLen < HEADER_LEN then Overflowed
      else Elems(frameLen - HEADER_LEN)
  }

  /** A frame's length comes back from its prefix exactly when the frame is a whole number of words, at most 8191. */
  lemma PrefixRoundTrip(frame: Bytes, rest: Bytes)
    requires |frame| >= HEADER_LEN && Un16(frame, 0) == CompressFrameLen(|frame|)
    ensures GetSliceLen(frame + rest) == Elems(|frame| - HEADER_LEN) <==> |frame| % 8 == 0 && |frame| <= MAX_FRAME_LEN
  {
  }

  /** Short of a whole frame, exactly the missing bytes are asked for; short of a prefix, those of a header. */
  lemma MissingBytes(buf: Bytes)
    ensures |buf| < 2 ==> GetSliceLen(buf) == BufferShort(8 - |buf|)
    ensures |buf| >= 2 ==>
      var len := 8 * (buf[0] as int + 0x100 * buf[1] as int);
      && (GetSliceLen(buf) == Overflowed <==> len > 65528 || (len == 0))
      && (GetSliceLen(buf).BufferShort? <==> |buf| < len <= 65528)
      && (GetSliceLen(buf).BufferShort? ==> GetSliceLen(buf).needed == len - |buf|)
  {
  }

  /** A frame as the reader accepts it: its prefix counts its words, and its header is legible. */
  predicate IsFrame(f: Bytes) {
    && HEADER_LEN <= |f| <= MAX_FRAME_LEN
    && Un16(f, 0) * 8 == |f|
    && DecodeHeader(f).Some?
  }

  // ---- What the reader makes of a byte stream ----

  /** `Closed` is also what a stream that ends inside a frame looks like. */
  datatype Ending = Closed | Corrupted | Aborted

  datatype Received = Frame(bytes: Bytes, rest: Bytes) | End(ending: Ending)

  /** The next frame of a stream of which `stream` is still to come. */
  function NextFrame(stream: Bytes): Received {
    if |stream| < HEADER_LEN then End(Closed)
    else
      var len := Un16(stream, 0) * 8;
      if len >= 0x1_0000 || len < HEADER_LEN then End(Aborted)
      else if |stream| < len then End(Closed)
      else if DecodeHeader(stream).None? then End(Corrupted)
      else Frame(stream[..len], stream[len..])
  }

  function DecodeStream(stream: Bytes): (seq<Bytes>, Ending)
    decreases |stream|
  {
    match NextFrame(stream)
    case End(ending) => ([], ending)
    case Frame(f, rest) =>
      var (frames, ending) := DecodeStream(rest);
      ([f] + frames, ending)
  }

  function Concat(frames: seq<Bytes>): Bytes {
    if frames == [] then [] else frames[0] + Concat(frames[1..])
  }

  lemma {:induction false} ConcatAppend(first: seq<Bytes>, more: seq<Bytes>)
    ensures Concat(first + more) == Concat(first) + Concat(more)
  {
    if first == [] {
      assert first + more == more;
    } else {
      ConcatAppend(first[1..], more);
      Assoc(first[0], Concat(first[1..]), Concat(more));
      assert (first + more)[1..] == first[1..] + more;
    }
  }

  predicate AreFrames(frames: seq<Bytes>) {
    forall i :: 0 <= i < |frames| ==> IsFrame(frames[i])
  }

  /** A proper part of a frame is no frame: the reader waits for more, and sees the stream close. */
  lemma PartialFrameCloses(f: Bytes, n: nat)
    requires IsFrame(f) && n < |f|
    ensures DecodeStream(f[..n]) == ([], Closed)
  {
  }

  lemma DecodeFirst(f: Bytes, rest: Bytes)
    requires IsFrame(f)
    ensures DecodeStream(f + rest) == ([f] + DecodeStream(rest).0, DecodeStream(rest).1)
  {
  }

  lemma Assoc<T>(a: seq<T>, b: seq<T>, c: seq<T>)
    ensures (a + b) + c == a + (b + c)
  {
  }

  lemma {:induction false} DecodeConcat(frames: seq<Bytes>, tail: Bytes)
    requires AreFrames(frames)
    ensures DecodeStream(Concat(frames) + tail) == (frames + DecodeStream(tail).0, DecodeStream(tail).1)
  {
    if frames == [] {
      assert Concat(frames) + tail == tail;
      assert frames + DecodeStream(tail).0 == DecodeStream(tail).0;
    } else {
      var f, later := frames[0], frames[1..];
      DecodeConcat(later, tail);
      DecodeFirst(f, Concat(later) + tail);
      Assoc(f, Concat(later), tail);
      Assoc([f], later, DecodeStream(tail).0);
      assert frames == [f] + later;
    }
  }

  /** Any list of frames is read back from its concatenation, in order, and then the stream closes. */
  lemma DecodeInvertsConcat(frames: seq<Bytes>)
    requires AreFrames(frames)
    ensures DecodeStream(Concat(frames)) == (frames, Closed)
  {
    DecodeConcat(frames, []);
    assert Concat(frames) + [] == Concat(frames);
    assert frames + [] == frames;
  }

  /** The frames that end at or before position `n` of the concatenation. */
  function CompleteBefore(frames: seq<Bytes>, n: nat): seq<Bytes> {
    if frames == [] || n < |frames[0]| then [] else [frames[0]] + CompleteBefore(frames[1..], n - |frames[0]|)
  }

  /** A stream cut anywhere yields exactly the frames that were complete before the cut. */
  lemma {:induction false} CutStreamYieldsCompleteFrames(frames: seq<Bytes>, n: nat)
    requires AreFrames(frames) && n <= |Concat(frames)|
    ensures DecodeStream(Concat(frames)[..n]) == (CompleteBefore(frames, n), Closed)
  {
    if frames == [] {
    } else if n < |frames[0]| {
      assert Concat(frames)[..n] == frames[0][..n];
      PartialFrameCloses(frames[0], n);
    } else {
      var f, rest := frames[0], Concat(frames[1..]);
      CutStreamYieldsCompleteFrames(frames[1..], n - |f|);
      assert Concat(frames)[..n] == f + rest[..n - |f|];
      DecodeFirst(f, rest[..n - |f|]);
    }
  }

  /** Conversely, whatever the reader returns are frames, and their concatenation is what it consumed. */
  lemma {:induction false} DecodedAreFrames(stream: Bytes)
    ensures AreFrames(DecodeStream(stream).0)
    ensures Concat(DecodeStream(stream).0) <= stream
    decreases |stream|
  {
    match NextFrame(stream)
    case End(_) =>
    case Frame(f, rest) =>
      DecodedAreFrames(rest);
      FirstIsFrame(stream);
      var (frames, _) := DecodeStream(rest);
      assert ([f] + frames)[1..] == frames;
      assert stream == f + rest;
  }

  lemma FirstIsFrame(stream: Bytes)
    requires NextFrame(stream).Frame?
    ensures IsFrame(NextFrame(stream).bytes)
  {
  }

  // ---- The stream and the buffer ----

  /** The receiving end of a stream, `rest` still to come: each read delivers what it likes, but something. */
  class Source {
    var rest: Bytes

    constructor (stream: Bytes)
      ensures rest == stream
    {
      rest := stream;
    }

    /** Reads at most `spare` bytes. With room in the buffer, nothing read means the stream has ended. */
    method Read(spare: nat) returns (chunk: Bytes)
      requires spare > 0
      modifies this
      ensures old(rest) == chunk + rest && |chunk| <= spare
      ensures chunk == [] <==> old(rest) == []
    {
      if rest == [] {
        return [];
      }
      var n: nat :| 1 <= n <= spare && n <= |rest|;
      chunk := rest[..n];
      rest := rest[n..];
    }
  }

  datatype Claim = Claimed(frame: Bytes) | Short(needed: nat) | Garbage | Panic

  const EXTRA: nat := 16384

  class Ring {
    var buf: Bytes
    var capacity: nat

    ghost predicate Valid()
      reads this
    {
      |buf| <= capacity
    }

    constructor (cap: nat)
      ensures Valid() && buf == []
    {
      buf, capacity := [], cap;
    }

    method Reserve(additional: nat)
      requires Valid()
      modifies `capacity
      ensures Valid() && capacity >= |buf| + additional
    {
      if capacity < |buf| + additional {
        capacity := |buf| + additional;
      }
    }

    method FillWithReader(rx: Source) returns (bytesRead: nat)
      requires Valid() && |buf| < capacity
      modifies `buf, rx
      ensures Valid() && old(buf) <= buf && |buf| == |old(buf)| + bytesRead
      ensures buf + rx.rest == old(buf + rx.rest)
      ensures bytesRead == 0 <==> old(rx.rest) == []
    {
      var chunk := rx.Read(capacity - |buf|);
      buf := buf + chunk;
      bytesRead := |chunk|;
    }

    /** Reads until the buffer holds `numBytes`; fails exactly when the stream ends before that. */
    method FillUntil(rx: Source, numBytes: nat) returns (filled: bool)
      requires Valid()
      modifies this, rx
      ensures Valid() && old(buf) <= buf
      ensures buf + rx.rest == old(buf + rx.rest)
      ensures filled <==> numBytes <= |old(buf + rx.rest)|
      ensures filled ==> numBytes <= |buf|
      ensures !filled ==> rx.rest == []
    {
      while numBytes > |buf|
        invariant Valid() && old(buf) <= buf
        invariant buf + rx.rest == old(buf + rx.rest)
        decreases |rx.rest|
      {
        var isFull := capacity < |buf| + numBytes;
        if isFull {
          Reserve(EXTRA);
        }
        var n := FillWithReader(rx);
        if n == 0 {
          return false;
        }
      }
      filled := true;
    }

    /** Cuts the first frame off the buffer. */
    method ClaimDst() returns (c: Claim)
      requires Valid()
      modifies this
      ensures Valid()
      ensures match GetSliceLen(old(buf))
        case BufferShort(needed) => c == Short(needed) && buf == old(buf)
        case Overflowed => c == Panic && buf == old(buf)
        case Elems(n) =>
          && buf == old(buf)[HEADER_LEN + n..]
          && c == if DecodeHeader(old(buf)).Some? then Claimed(old(buf)[..HEADER_LEN + n]) else Garbage
    {
      match GetSliceLen(buf)
      case BufferShort(needed) => c := Short(needed);
      case Overflowed => c := Panic;
      case Elems(n) =>
        var frame := buf[..HEADER_LEN + n];
        assert DecodeHeader(frame) == DecodeHeader(buf);
        buf, capacity := buf[HEADER_LEN + n..], capacity - (HEADER_LEN + n);
        c := if DecodeHeader(frame).Some? then Claimed(frame) else Garbage;
    }
  }

  datatype Reception = Got(frame: Bytes) | Over(ending: Ending)

  /**
   Receives a frame. What comes back depends only on the bytes of the stream, however it was cut
   into reads; and at most two attempts are made to claim a frame.
   */
  method RecvFrame(rx: Source, ring: Ring) returns (r: Reception, ghost attempts: nat)
    requires ring.Valid()
    modifies rx, ring
    ensures ring.Valid()
    ensures match NextFrame(old(ring.buf + rx.rest))
      case Frame(f, rest) => r == Got(f) && ring.buf + rx.rest == rest
      case End(ending) => r == Over(ending)
    ensures attempts <= 2
  {
    ghost var stream := ring.buf + rx.rest;
    attempts := 0;
    var minLen := HEADER_LEN;
    while true
      invariant ring.Valid() && ring.buf + rx.rest == stream
      invariant attempts == 0 ==> minLen == HEADER_LEN
      invariant attempts != 0 ==>
        attempts == 1 && |stream| >= HEADER_LEN && HEADER_LEN <= minLen == Un16(stream, 0) * 8 < 0x1_0000
      decreases 2 - attempts
    {
      var filled := ring.FillUntil(rx, minLen);
      if !filled {
        return Over(Closed), attempts;
      }
      assert Un16(ring.buf, 0) == Un16(stream, 0) && DecodeHeader(ring.buf) == DecodeHeader(stream);
      ghost var before := ring.buf;
      var claim := ring.ClaimDst();
      attempts := attempts + 1;
      match claim
      case Claimed(frame) =>
        assert frame == stream[..|frame|] && before + rx.rest == stream;
        assert ring.buf + rx.rest == stream[|frame|..];
        return Got(frame), attempts;
      case Garbage => return Over(Corrupted), attempts;
      case Panic => return Over(Aborted), attempts;
      case Short(needed) => minLen := |ring.buf| + needed;
    }
  }

  /** The receiving loop: frames until the stream closes or turns out illegible. */
  method ReceiveAll(rx: Source, ring: Ring) returns (frames: seq<Bytes>, ending: Ending)
    requires ring.Valid()
    modifies rx, ring
    ensures (frames, ending) == DecodeStream(old(ring.buf + rx.rest))
  {
    frames := [];
    ghost var all := DecodeStream(ring.buf + rx.rest);
    assert [] + all.0 == all.0;
    while true
      invariant ring.Valid()
      invariant
        var (later, end) := DecodeStream(ring.buf + rx.rest);
        all == (frames + later, end)
      decreases |ring.buf| + |rx.rest|
    {
      assert frames + [] == frames;
      var r, _ := RecvFrame(rx, ring);
      match r
      case Got(frame) =>
        Assoc(frames, [frame], DecodeStream(ring.buf + rx.rest).0);
        frames := frames + [frame];
      case Over(end) => return frames, end;
    }
  }
}
