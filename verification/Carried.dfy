/** What the frames in a byte stream mean to the protocol: the lender's dispatch, and the borrower's. */
module Carried {
  import opened Wrappers
  import opened Wire
  import opened FrameReader
  import F = Frames
  import P = Protocol

  function JobKind(kind: TransferKind): (k: P.Kind)
    ensures k != P.Reset
  {
    match kind
    case Isochronous => P.Iso
    case Interrupt => P.Int
    case Control => P.Ctrl
    case Bulk => P.Bulk
  }

  /** SET_CONFIGURATION, SET_INTERFACE and CLEAR_FEATURE(endpoint), of section 9.4 of the USB 2.0 specification. */
  predicate IsBlocking(setup: SetupPacket) {
    setup[..2] in [[0x00, 9], [0x01, 11], [0x02, 1]]
  }

  function JobOf(seqnum: u32, u: UrbHeader): P.Job {
    P.Job(seqnum, JobKind(u.kind), u.kind.Control? && IsBlocking(u.ctrlPacket))
  }

  /** How the lender takes a parsed frame. */
  function RequestIn(p: F.Parsed): Option<P.Frame> {
    match p
    case UrbFrame(seqnum, u, _) => Some(P.New(JobOf(seqnum, u)))
    case PortReset(seqnum) => Some(P.New(P.Job(seqnum, P.Reset, false)))
    case Unlink(seqnum) => Some(P.Unlink(seqnum))
    case _ => None
  }

  predicate CarriesRequest(f: Bytes, r: P.Frame) {
    IsFrame(f) && RequestIn(F.ParseFrame(f)) == Some(r)
  }

  /** How the borrower takes a parsed frame; of the job it sees the number and the kind. */
  predicate CarriesReply(f: Bytes, job: P.Job) {
    && IsFrame(f)
    && match F.ParseFrame(f)
       case UrbFrame(seqnum, u, _) => seqnum == job.seqnum && JobKind(u.kind) == job.kind
       case PortReset(seqnum) => seqnum == job.seqnum && job.kind.Reset?
       case _ => false
  }

  predicate CarriesAll<T>(carries: (Bytes, T) -> bool, frames: seq<Bytes>, items: seq<T>) {
    |frames| == |items| && forall i :: 0 <= i < |frames| ==> carries(frames[i], items[i])
  }

  /** Read as a stream, the bytes are whole frames that carry the items, in order. */
  predicate Encodes<T>(carries: (Bytes, T) -> bool, buf: Bytes, items: seq<T>) {
    var (frames, ending) := DecodeStream(buf);
    ending.Closed? && Concat(frames) == buf && CarriesAll(carries, frames, items)
  }

  lemma EncodesNothing<T>(carries: (Bytes, T) -> bool)
    ensures Encodes(carries, [], [])
  {
  }

  lemma EncodesOne<T>(carries: (Bytes, T) -> bool, f: Bytes, item: T)
    requires IsFrame(f) && carries(f, item)
    ensures Encodes(carries, f, [item])
  {
    DecodeInvertsConcat([f]);
    assert Concat([f]) == f;
  }

  /** Streams that follow one another encode what they encode one after the other. */
  lemma EncodesJoin<T>(carries: (Bytes, T) -> bool, a: Bytes, before: seq<T>, b: Bytes, after: seq<T>)
    requires Encodes(carries, a, before) && Encodes(carries, b, after)
    ensures Encodes(carries, a + b, before + after)
  {
    var early, late := DecodeStream(a).0, DecodeStream(b).0;
    DecodedAreFrames(a);
    DecodeConcat(early, b);
    ConcatAppend(early, late);
  }

  lemma EncodesAppend<T>(carries: (Bytes, T) -> bool, buf: Bytes, items: seq<T>, f: Bytes, item: T)
    requires Encodes(carries, buf, items) && IsFrame(f) && carries(f, item)
    ensures Encodes(carries, buf + f, items + [item])
  {
    EncodesOne(carries, f, item);
    EncodesJoin(carries, buf, items, f, [item]);
  }

  // ---- The frames the handlers write ----

  lemma HeaderCarries(seqnum: u32)
    ensures CarriesRequest(F.HeaderFrame(CmdUnlink, Success, seqnum), P.Unlink(seqnum))
    ensures CarriesRequest(F.HeaderFrame(CmdPort, Success, seqnum), P.New(P.Job(seqnum, P.Reset, false)))
    ensures forall blocking :: CarriesReply(F.HeaderFrame(RetPort, Success, seqnum), P.Job(seqnum, P.Reset, blocking))
  {
  }

  function RequestJob(urb: F.HostUrb, seqnum: u32): P.Job {
    P.Job(seqnum, JobKind(urb.kind), urb.kind.Control? && IsBlocking(urb.setup))
  }

  /** The lender runs the job the borrower sent exactly when it is encoded in at most 65528 bytes. */
  lemma RequestCarries(urb: F.HostUrb, seqnum: u32, transfer: Bytes, filler: Bytes, iso: Bytes)
    requires F.Fetched(urb, transfer, iso) && |filler| == Align8(|transfer|) - |transfer|
    ensures
      var f := F.Request(urb, seqnum, transfer, filler, iso);
      f.Some? && CarriesRequest(f.value, P.New(RequestJob(urb, seqnum)))
      <==> F.SlicesInRange(urb) && F.RequestLen(urb) <= MAX_FRAME_LEN
  {
    if F.SlicesInRange(urb) {
      F.RequestParses(urb, seqnum, transfer, filler, iso);
    }
  }

  lemma ReplyCarries(kind: TransferKind, endpoint: byte, interval: u16, status: TransferStatus, seqnum: u32,
                     res: F.ResultData, iso: Bytes, numPackets: u16, numErrors: u16, blocking: bool)
    requires F.Directed(res, endpoint) && |iso| % 8 == 0
    ensures
      var f := F.Reply(kind, endpoint, interval, status, seqnum, res, iso, numPackets, numErrors);
      CarriesReply(f, P.Job(seqnum, JobKind(kind), blocking)) <==> |f| <= MAX_FRAME_LEN
  {
    F.ReplyRoundTrip(kind, endpoint, interval, status, seqnum, res, iso, numPackets, numErrors);
  }
}
