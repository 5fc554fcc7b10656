/**
 Everything together: handlers that append bytes, send loops that batch them, streams, readers that
 cut them apart, and dispatch on what the frames say. The whole machine runs as the protocol says.
 */
module Composed {
  import opened Wrappers
  import opened Wire
  import opened FrameReader
  import opened Carried
  import F = Frames
  import P = Protocol
  import R = ProtocolRuns
  import L = SendLoops
  import B = BorrowHandlers
  import LendHandlers

  // ---- One direction ----

  /** A send loop, and how far the peer has read what it wrote. */
  datatype Link = Link(loop: L.State, read: nat)

  function Unread(l: Link): Bytes {
    if l.read <= |l.loop.written| then l.loop.written[l.read..] else []
  }

  /** Flushed bytes that the peer has not read carry `sent`; the handler's buffer carries `unsent`. */
  ghost predicate Conveys<T>(carries: (Bytes, T) -> bool, l: Link, sent: seq<T>, unsent: seq<T>) {
    && L.Inv(l.loop) && l.read <= |l.loop.written|
    && Encodes(carries, Unread(l) + l.loop.inFlight, sent)
    && Encodes(carries, l.loop.buf, unsent)
  }

  function Fire(role: L.Role, l: Link, e: L.Event): Link {
    l.(loop := L.Step(role, l.loop, e))
  }

  lemma AppendConveys<T>(carries: (Bytes, T) -> bool, role: L.Role, l: Link, sent: seq<T>, unsent: seq<T>,
                         f: Bytes, item: T)
    requires Conveys(carries, l, sent, unsent) && IsFrame(f) && carries(f, item)
    ensures Conveys(carries, Fire(role, l, L.Work(f)), sent, unsent + [item])
  {
    L.StepKeepsInv(role, l.loop, L.Work(f));
    EncodesAppend(carries, l.loop.buf, unsent, f, item);
  }

  lemma IdleConveys<T>(carries: (Bytes, T) -> bool, l: Link, sent: seq<T>, unsent: seq<T>, e: L.Event)
    requires Conveys(carries, l, sent, unsent) && (e == L.Work([]) || e.StartAddress? || e.AddressSet?)
    ensures Conveys(carries, Fire(L.Borrower, l, e), sent, unsent)
  {
    assert l.loop.buf + [] == l.loop.buf;
  }

  lemma FlushConveys<T>(carries: (Bytes, T) -> bool, role: L.Role, l: Link, sent: seq<T>, unsent: seq<T>)
    requires Conveys(carries, l, sent, unsent) && l.loop.phase.Timer?
    ensures Conveys(carries, Fire(role, l, L.FlushBuf), sent + unsent, [])
  {
    assert Unread(l) + [] == Unread(l);
    EncodesJoin(carries, Unread(l), sent, l.loop.buf, unsent);
    EncodesNothing(carries);
  }

  lemma WrittenConveys<T>(carries: (Bytes, T) -> bool, role: L.Role, l: Link, sent: seq<T>, unsent: seq<T>)
    requires Conveys(carries, l, sent, unsent) && l.loop.phase.Flush?
    ensures Conveys(carries, Fire(role, l, L.FlushComplete), sent, unsent)
  {
    var m := Fire(role, l, L.FlushComplete);
    L.StepKeepsInv(role, l.loop, L.FlushComplete);
    assert Unread(m) + [] == Unread(l) + l.loop.inFlight;
  }

  /** What the reader makes of the front of a stream of frames. */
  lemma PrefixNext(frames: seq<Bytes>, n: nat)
    requires AreFrames(frames) && n <= |Concat(frames)|
    ensures NextFrame(Concat(frames)[..n]) ==
            if frames == [] || n < |frames[0]| then End(Closed) else Frame(frames[0], Concat(frames)[|frames[0]|..n])
  {
    if frames != [] {
      var f, all := frames[0], Concat(frames);
      assert all == f + Concat(frames[1..]);
      if n < |f| {
        assert all[..n] == f[..n];
        PartialFrameCloses(f, n);
      } else {
        assert all[..n] == f + all[|f|..n];
        FrameIsNext(f, all[|f|..n]);
      }
    }
  }

  lemma FrameIsNext(f: Bytes, rest: Bytes)
    requires IsFrame(f)
    ensures NextFrame(f + rest) == Frame(f, rest)
  {
  }

  function Consumed(l: Link, f: Bytes): Link {
    l.(read := l.read + |f|)
  }

  /** The peer reads nothing until the first frame is there, and then exactly that frame. */
  lemma ReadConveys<T>(carries: (Bytes, T) -> bool, l: Link, sent: seq<T>, unsent: seq<T>)
    requires Conveys(carries, l, sent, unsent) && NextFrame(Unread(l)) != End(Closed)
    ensures
      var next := NextFrame(Unread(l));
      && next.Frame? && sent != [] && carries(next.bytes, sent[0]) && IsFrame(next.bytes)
      && Conveys(carries, Consumed(l, next.bytes), sent[1..], unsent)
  {
    var stream := Unread(l) + l.loop.inFlight;
    var frames := DecodeStream(stream).0;
    DecodedAreFrames(stream);
    ReadsFirst(frames, Unread(l), l.loop.inFlight);
    assert Unread(Consumed(l, frames[0])) == Unread(l)[|frames[0]|..];
    DecodeInvertsConcat(frames[1..]);
  }

  lemma ReadsFirst(frames: seq<Bytes>, unread: Bytes, inFlight: Bytes)
    requires AreFrames(frames) && Concat(frames) == unread + inFlight && NextFrame(unread) != End(Closed)
    ensures frames != [] && |frames[0]| <= |unread|
    ensures NextFrame(unread).Frame? && NextFrame(unread).bytes == frames[0]
    ensures unread[|frames[0]|..] + inFlight == Concat(frames[1..])
  {
    var stream := unread + inFlight;
    assert stream[..|unread|] == unread;
    PrefixNext(frames, |unread|);
    var f := frames[0];
    assert stream == f + Concat(frames[1..]);
    assert unread[|f|..] + inFlight == stream[|f|..] == Concat(frames[1..]);
  }

  // ---- The machine ----

  /** A request frame whose payload the lender can slice. */
  predicate TakesRequest(f: Bytes, r: P.Frame) {
    CarriesRequest(f, r) && !LenderPanics(F.ParseFrame(f))
  }

  /** The receiving handler panics on a transfer whose payload does not have the announced lengths. */
  predicate LenderPanics(p: F.Parsed) {
    p.UrbFrame? && P.IsTransfer(JobOf(p.seqnum, p.header)) && LendHandlers.Sliced(p.header, p.data).None?
  }

  /** A reply frame whose payload the borrower can slice. */
  predicate TakesReply(f: Bytes, job: P.Job) {
    CarriesReply(f, job) && !BorrowerPanics(F.ParseFrame(f))
  }

  predicate BorrowerPanics(p: F.Parsed) {
    p.UrbFrame? && F.UrbReply(p.header, p.data).None?
  }

  /** The number a reply answers. */
  function ReplyIn(p: F.Parsed): Option<nat> {
    match p
    case UrbFrame(seqnum, _, _) => Some(seqnum)
    case PortReset(seqnum) => Some(seqnum)
    case _ => None
  }

  /**
   Both peers with empty outboxes, for what they send is in the links as bytes; and for the record the
   handles submitted, in order, and those given back, by sequence number.
   */
  datatype Machine = Machine(borrower: P.Borrower, prev: B.PortStat, up: Link, lender: P.Lender, down: Link,
                             submitted: seq<P.Handle>, returned: map<nat, P.Handle>)

  const QUIET := Link(L.START, 0)

  const START := Machine(P.INITIAL.borrower, B.NO_PORT_STAT, QUIET, P.IDLE_LENDER, QUIET, [], map[])

  datatype Event =
    | HostWork(w: B.Work)
    | AddressSet
    | UpFlush
    | UpWritten
    | LenderReads
    | Completes(job: P.Job)
    | Replies(kind: P.Kind, reply: Bytes)
    | DownFlush
    | DownWritten
    | BorrowerReads

  /** The work item is numbered as a request of its own. */
  predicate Submits(prev: B.PortStat, w: B.Work) {
    match w
    case StatWork(next, _) => B.SendsReset(prev, next)
    case UrbWork(_, _, _, _, _, _) => !B.IsSetAddress(w)
    case CancelWork(_) => false
  }

  /** The payload of a request can be sliced by the lender. */
  predicate Sliceable(w: B.Work) {
    w.UrbWork? && !B.IsSetAddress(w) && !(w.urb.kind.Control? && IsBlocking(w.urb.setup)) ==>
      LendHandlers.Sliced(F.RequestHeader(w.urb), w.transfer + w.filler + w.iso).Some?
  }

  /**
   The host supplies what requests need, sends no request that cannot be read or sliced, submits no
   outstanding handle, and stops before the numbers run out.
   */
  predicate HostObeys(m: Machine, w: B.Work) {
    && B.Supplied(w) && B.Readable(w) && Sliceable(w)
    && (Submits(m.prev, w) ==> !w.CancelWork? && w.handle !in m.borrower.seqOf && m.borrower.next + 1 < P.SEQNUM_LIMIT)
  }

  /** What can happen: the environment's moves, timers and writers, and readers with something to report. */
  predicate Enabled(m: Machine, e: Event) {
    match e
    case HostWork(w) => HostObeys(m, w)
    case AddressSet => m.up.loop.settingAddress
    case UpFlush => m.up.loop.phase.Timer?
    case UpWritten => m.up.loop.phase.Flush?
    case LenderReads => NextFrame(Unread(m.up)) != End(Closed)
    case Completes(job) => job in m.lender.working
    case Replies(kind, reply) =>
      P.Queue(m.lender.done, kind) != [] && TakesReply(reply, P.Queue(m.lender.done, kind)[0])
    case DownFlush => m.down.loop.phase.Timer?
    case DownWritten => m.down.loop.phase.Flush?
    case BorrowerReads => NextFrame(Unread(m.down)) != End(Closed)
  }

  /** `Broken`: a panic, a corrupt stream or a frame nobody understands. */
  datatype Outcome = Next(m: Machine) | Broken

  ghost function OnHostWork(m: Machine, w: B.Work): Outcome {
    if !B.Numbered(m.borrower) || !B.Supplied(w) || !B.InRange(w) then Broken
    else
      var b := B.Worked(m.borrower, m.prev, w);
      var e := if B.IsSetAddress(w) then L.StartAddress else L.Work(B.WorkBytes(m.borrower, m.prev, w));
      Next(m.(borrower := b.(outbox := []), up := Fire(L.Borrower, m.up, e),
              prev := if w.StatWork? then w.next else m.prev,
              submitted := if Submits(m.prev, w) && !w.CancelWork? then m.submitted + [w.handle] else m.submitted))
  }

  function OnLenderReads(m: Machine): Outcome {
    match NextFrame(Unread(m.up))
    case End(_) => Broken
    case Frame(f, _) =>
      if !IsFrame(f) || RequestIn(F.ParseFrame(f)).None? || LenderPanics(F.ParseFrame(f)) then Broken
      else Next(m.(up := Consumed(m.up, f), lender := P.Receive(m.lender, RequestIn(F.ParseFrame(f)).value)))
  }

  function OnBorrowerReads(m: Machine): Outcome {
    match NextFrame(Unread(m.down))
    case End(_) => Broken
    case Frame(f, _) =>
      if !IsFrame(f) || ReplyIn(F.ParseFrame(f)).None? || BorrowerPanics(F.ParseFrame(f)) then Broken
      else
        var q := ReplyIn(F.ParseFrame(f)).value;
        if !P.CanReturn(m.borrower, q) then Broken
        else Next(m.(down := Consumed(m.down, f), borrower := P.Returned(m.borrower, q),
                     returned := m.returned[q := m.borrower.handleOf[q]]))
  }

  ghost function Step(m: Machine, e: Event): Outcome
    requires Enabled(m, e)
  {
    match e
    case HostWork(w) => OnHostWork(m, w)
    case AddressSet => Next(m.(up := Fire(L.Borrower, m.up, L.AddressSet)))
    case UpFlush => Next(m.(up := Fire(L.Borrower, m.up, L.FlushBuf)))
    case UpWritten => Next(m.(up := Fire(L.Borrower, m.up, L.FlushComplete)))
    case LenderReads => OnLenderReads(m)
    case Completes(job) => Next(m.(lender := P.Complete(m.lender, job)))
    case Replies(kind, reply) =>
      Next(m.(lender := P.SendReply(m.lender, kind).(outbox := []), down := Fire(L.Lender, m.down, L.Work(reply))))
    case DownFlush => Next(m.(down := Fire(L.Lender, m.down, L.FlushBuf)))
    case DownWritten => Next(m.(down := Fire(L.Lender, m.down, L.FlushComplete)))
    case BorrowerReads => OnBorrowerReads(m)
  }

  /** Which requests the lender can slice: all but control requests whose setup packet says otherwise. */
  lemma SliceableIff(w: B.Work)
    requires w.UrbWork? && !B.IsSetAddress(w) && B.Supplied(w) && B.InRange(w)
    requires w.urb.kind.Control? ==> !IsBlocking(w.urb.setup) && w.urb.packetCount == 0
    ensures Sliceable(w) <==>
      (w.urb.kind.Control? ==>
         if IsOut(w.urb.endpoint) then Align8(F.SetupLength(w.urb.setup)) == Align8(w.urb.bufferLength)
         else F.Cast16(w.urb.bufferLength) <= 65528)
  {
    F.SlicesInRangeIff(w.urb);
    if w.urb.kind.Control? {
      F.CtrlRequestRoundTrip(w.urb, w.transfer, w.filler, w.iso);
      Align8IsLeast(F.Cast16(w.urb.bufferLength), 0x1_0000);
    } else {
      F.PayloadSlices(F.RequestHeader(w.urb), w.transfer, w.filler, w.iso);
    }
  }

  /** The replies the lender's handler encodes are taken exactly when they have at most 65528 bytes. */
  lemma EncodedReplyIsTaken(kind: TransferKind, endpoint: byte, interval: u16, status: TransferStatus, seqnum: u32,
                            res: F.ResultData, iso: Bytes, numPackets: u16, numErrors: u16, blocking: bool)
    requires F.Directed(res, endpoint) && |iso| % 8 == 0
    ensures
      var f := F.Reply(kind, endpoint, interval, status, seqnum, res, iso, numPackets, numErrors);
      TakesReply(f, P.Job(seqnum, JobKind(kind), blocking)) <==> |f| <= MAX_FRAME_LEN
  {
    ReplyCarries(kind, endpoint, interval, status, seqnum, res, iso, numPackets, numErrors, blocking);
    F.ReplyRoundTrip(kind, endpoint, interval, status, seqnum, res, iso, numPackets, numErrors);
  }

  // ---- The machine runs as the protocol says ----

  /** The same peers, with what they send kept elsewhere, and the same record. */
  ghost predicate Peers(m: Machine, s: P.System) {
    && m.borrower == s.borrower.(outbox := []) && m.lender == s.lender.(outbox := [])
    && m.submitted == s.origin && m.returned == s.returned && s.borrower.next < P.SEQNUM_LIMIT
  }

  /** A link with flushed bytes for some items and buffered bytes for others, under any notion of "for". */
  type Carriage<!T> = (Link, seq<T>, seq<T>) -> bool

  ghost predicate Linked(cu: Carriage<P.Frame>, cd: Carriage<P.Job>, m: Machine, s: P.System) {
    Peers(m, s) && cu(m.up, s.uplink, s.borrower.outbox) && cd(m.down, s.downlink, s.lender.outbox)
  }

  ghost predicate Upward(l: Link, sent: seq<P.Frame>, unsent: seq<P.Frame>) {
    Conveys(TakesRequest, l, sent, unsent)
  }

  ghost predicate Downward(l: Link, sent: seq<P.Job>, unsent: seq<P.Job>) {
    Conveys(TakesReply, l, sent, unsent)
  }

  /** What is under way as frames in the protocol is under way as bytes in the machine. */
  ghost predicate Related(m: Machine, s: P.System) {
    Linked(Upward, Downward, m, s)
  }

  lemma StartRelated()
    ensures Related(START, P.INITIAL)
  {
    EncodesNothing(TakesRequest);
    EncodesNothing(TakesReply);
    assert Unread(QUIET) + [] == [];
  }

  lemma InvNumbered(m: Machine, s: P.System)
    requires Peers(m, s) && P.Inverse(s.borrower) && P.Recorded(s)
    ensures B.Numbered(m.borrower)
  {
  }

  /** The protocol's action for a work item, if it is one. */
  function HostAction(prev: B.PortStat, w: B.Work): Option<P.Action> {
    match w
    case StatWork(next, handle) =>
      if B.SendsReset(prev, next) then Some(P.Submit(handle, P.Reset, false)) else None
    case UrbWork(urb, _, handle, _, _, _) =>
      if B.IsSetAddress(w) then None
      else Some(P.Submit(handle, JobKind(urb.kind), urb.kind.Control? && IsBlocking(urb.setup)))
    case CancelWork(handle) => Some(P.CancelUrb(handle))
  }

  /** The step of the protocol a machine step amounts to, if any. */
  function ActionOf(m: Machine, e: Event): Option<P.Action> {
    match e
    case HostWork(w) => HostAction(m.prev, w)
    case UpFlush => Some(P.FlushRequests)
    case LenderReads => Some(P.LenderReceives)
    case Completes(job) => Some(P.Completes(job))
    case Replies(kind, _) => Some(P.Replies(kind))
    case DownFlush => Some(P.FlushReplies)
    case BorrowerReads => Some(P.BorrowerReceives)
    case _ => None
  }

  /** What the frame of a work item means: what it adds to an empty outbox. */
  function Meaning(b: P.Borrower, prev: B.PortStat, w: B.Work): seq<P.Frame> {
    B.Worked(b.(outbox := []), prev, w).outbox
  }

  lemma WorkBytesCarry(b: P.Borrower, prev: B.PortStat, w: B.Work)
    requires B.Numbered(b) && B.Supplied(w) && B.Readable(w) && Sliceable(w)
    ensures
      var bytes, meaning := B.WorkBytes(b, prev, w), Meaning(b, prev, w);
      if meaning == [] then bytes == []
      else |meaning| == 1 && IsFrame(bytes) && TakesRequest(bytes, meaning[0])
  {
    match w
    case StatWork(_, _) => HeaderCarries(b.next);
    case UrbWork(urb, _, _, transfer, filler, iso) =>
      if !B.IsSetAddress(w) {
        RequestCarries(urb, b.next, transfer, filler, iso);
        F.RequestParses(urb, b.next, transfer, filler, iso);
      }
    case CancelWork(handle) =>
      if handle in b.seqOf {
        HeaderCarries(b.seqOf[handle]);
      }
  }

  /** The system after the action, or unchanged. */
  ghost predicate Follows(s: P.System, a: Option<P.Action>, t: P.System) {
    match a
    case None => t == s
    case Some(action) => P.Enabled(s, action) && !P.Panics(s, action) && t == P.Next(s, action)
  }

  /** What a work item does in the protocol: it touches the borrower and the record alone. */
  lemma HostActionDoes(m: Machine, s: P.System, w: B.Work) returns (t: P.System)
    requires Peers(m, s) && HostObeys(m, w)
    ensures Follows(s, HostAction(m.prev, w), t)
    ensures t.borrower == B.Worked(m.borrower, m.prev, w).(outbox := s.borrower.outbox + Meaning(m.borrower, m.prev, w))
    ensures t.uplink == s.uplink && t.lender == s.lender && t.downlink == s.downlink && t.returned == s.returned
    ensures t.origin == if Submits(m.prev, w) && !w.CancelWork? then s.origin + [w.handle] else s.origin
    ensures t.borrower.next < P.SEQNUM_LIMIT
  {
    t := s;
    if HostAction(m.prev, w).Some? {
      t := P.Next(s, HostAction(m.prev, w).value);
    }
    assert s.borrower.outbox + [] == s.borrower.outbox;
  }

  /** The link after the work item's bytes, or after the start of a SET_ADDRESS. */
  lemma HostLinkConveys<T>(cr: (Bytes, T) -> bool, l: Link, sent: seq<T>, unsent: seq<T>, e: L.Event, meaning: seq<T>)
    requires Conveys(cr, l, sent, unsent)
    requires (e == L.StartAddress && meaning == []) || e.Work?
    requires e.Work? ==>
      if meaning == [] then e.bytes == [] else |meaning| == 1 && IsFrame(e.bytes) && cr(e.bytes, meaning[0])
    ensures Conveys(cr, Fire(L.Borrower, l, e), sent, unsent + meaning)
  {
    if meaning == [] {
      IdleConveys(cr, l, sent, unsent, e);
      assert unsent + meaning == unsent;
    } else {
      AppendConveys(cr, L.Borrower, l, sent, unsent, e.bytes, meaning[0]);
      assert meaning == [meaning[0]];
    }
  }

  ghost function HostEvent(b: P.Borrower, prev: B.PortStat, w: B.Work): L.Event
    requires B.Numbered(b) && B.Supplied(w) && B.InRange(w)
  {
    if B.IsSetAddress(w) then L.StartAddress else L.Work(B.WorkBytes(b, prev, w))
  }

  // With any notion of carriage, the machine's step matches the protocol's as far as its link does.

  lemma HostWorkLinked(cu: Carriage<P.Frame>, cd: Carriage<P.Job>, m: Machine, s: P.System, w: B.Work)
      returns (t: P.System)
    requires Linked(cu, cd, m, s) && B.Numbered(m.borrower) && HostObeys(m, w)
    requires cu(Fire(L.Borrower, m.up, HostEvent(m.borrower, m.prev, w)), s.uplink,
                s.borrower.outbox + Meaning(m.borrower, m.prev, w))
    ensures Follows(s, HostAction(m.prev, w), t)
    ensures OnHostWork(m, w).Next? && Linked(cu, cd, OnHostWork(m, w).m, t)
  {
    t := HostActionDoes(m, s, w);
  }

  lemma UpFlushLinked(cu: Carriage<P.Frame>, cd: Carriage<P.Job>, m: Machine, s: P.System, l: Link)
    requires Linked(cu, cd, m, s) && cu(l, s.uplink + s.borrower.outbox, [])
    ensures Linked(cu, cd, m.(up := l), P.Next(s, P.FlushRequests))
  {
  }

  lemma DownFlushLinked(cu: Carriage<P.Frame>, cd: Carriage<P.Job>, m: Machine, s: P.System, l: Link)
    requires Linked(cu, cd, m, s) && cd(l, s.downlink + s.lender.outbox, [])
    ensures Linked(cu, cd, m.(down := l), P.Next(s, P.FlushReplies))
  {
  }

  lemma CompletesLinked(cu: Carriage<P.Frame>, cd: Carriage<P.Job>, m: Machine, s: P.System, job: P.Job)
    requires Linked(cu, cd, m, s) && job in m.lender.working
    ensures P.Enabled(s, P.Completes(job))
    ensures Linked(cu, cd, m.(lender := P.Complete(m.lender, job)), P.Next(s, P.Completes(job)))
  {
  }

  lemma RepliesLinked(cu: Carriage<P.Frame>, cd: Carriage<P.Job>, m: Machine, s: P.System, kind: P.Kind, l: Link)
    requires Linked(cu, cd, m, s) && P.Queue(m.lender.done, kind) != []
    requires cd(l, s.downlink, s.lender.outbox + [P.Queue(m.lender.done, kind)[0]])
    ensures P.Enabled(s, P.Replies(kind))
    ensures
      Linked(cu, cd, m.(lender := P.SendReply(m.lender, kind).(outbox := []), down := l), P.Next(s, P.Replies(kind)))
  {
  }

  lemma LenderReadsLinked(cu: Carriage<P.Frame>, cd: Carriage<P.Job>, m: Machine, s: P.System, l: Link)
    requires Linked(cu, cd, m, s) && s.uplink != [] && cu(l, s.uplink[1..], s.borrower.outbox)
    ensures Linked(cu, cd, m.(up := l, lender := P.Receive(m.lender, s.uplink[0])), P.Next(s, P.LenderReceives))
  {
  }

  lemma BorrowerReadsLinked(cu: Carriage<P.Frame>, cd: Carriage<P.Job>, m: Machine, s: P.System, l: Link)
    requires Linked(cu, cd, m, s) && s.downlink != [] && cd(l, s.downlink[1..], s.lender.outbox)
    requires P.CanReturn(s.borrower, s.downlink[0].seqnum)
    ensures
      var q := s.downlink[0].seqnum;
      P.CanReturn(m.borrower, q) &&
      Linked(cu, cd,
             m.(down := l, borrower := P.Returned(m.borrower, q), returned := m.returned[q := m.borrower.handleOf[q]]),
             P.Next(s, P.BorrowerReceives))
  {
  }

  // ---- Step by step ----

  lemma HostWorkStep(m: Machine, s: P.System, w: B.Work) returns (t: P.System)
    requires Related(m, s) && B.Numbered(m.borrower) && HostObeys(m, w)
    ensures Follows(s, HostAction(m.prev, w), t)
    ensures OnHostWork(m, w).Next? && Related(OnHostWork(m, w).m, t)
  {
    HostLinkStep(m.up, s.uplink, s.borrower.outbox, m.borrower, m.prev, w);
    t := HostWorkLinked(Upward, Downward, m, s, w);
  }

  lemma HostLinkStep(l: Link, sent: seq<P.Frame>, unsent: seq<P.Frame>, b: P.Borrower, prev: B.PortStat, w: B.Work)
    requires Upward(l, sent, unsent)
    requires B.Numbered(b) && B.Supplied(w) && B.Readable(w) && Sliceable(w)
    ensures Upward(Fire(L.Borrower, l, HostEvent(b, prev, w)), sent, unsent + Meaning(b, prev, w))
  {
    WorkBytesCarry(b, prev, w);
    HostLinkConveys(TakesRequest, l, sent, unsent, HostEvent(b, prev, w), Meaning(b, prev, w));
  }

  lemma LenderReadsStep(m: Machine, s: P.System)
    requires Related(m, s) && Enabled(m, LenderReads)
    ensures s.uplink != [] && OnLenderReads(m).Next? && Related(OnLenderReads(m).m, P.Next(s, P.LenderReceives))
  {
    var f := ReadUp(m.up, s.uplink, s.borrower.outbox);
    LenderReadsLinked(Upward, Downward, m, s, Consumed(m.up, f));
  }

  lemma ReadUp(l: Link, sent: seq<P.Frame>, unsent: seq<P.Frame>) returns (f: Bytes)
    requires Upward(l, sent, unsent) && NextFrame(Unread(l)) != End(Closed)
    ensures NextFrame(Unread(l)).Frame? && f == NextFrame(Unread(l)).bytes && IsFrame(f) && sent != []
    ensures RequestIn(F.ParseFrame(f)) == Some(sent[0]) && !LenderPanics(F.ParseFrame(f))
    ensures Upward(Consumed(l, f), sent[1..], unsent)
  {
    ReadConveys(TakesRequest, l, sent, unsent);
    f := NextFrame(Unread(l)).bytes;
  }

  lemma BorrowerReadsStep(m: Machine, s: P.System)
    requires Related(m, s) && Enabled(m, BorrowerReads)
    requires s.downlink != [] ==> P.CanReturn(s.borrower, s.downlink[0].seqnum)
    ensures s.downlink != [] && OnBorrowerReads(m).Next? && Related(OnBorrowerReads(m).m, P.Next(s, P.BorrowerReceives))
  {
    var f := ReadDown(m.down, s.downlink, s.lender.outbox);
    BorrowerReadsLinked(Upward, Downward, m, s, Consumed(m.down, f));
  }

  lemma ReadDown(l: Link, sent: seq<P.Job>, unsent: seq<P.Job>) returns (f: Bytes)
    requires Downward(l, sent, unsent) && NextFrame(Unread(l)) != End(Closed)
    ensures NextFrame(Unread(l)).Frame? && f == NextFrame(Unread(l)).bytes && IsFrame(f) && sent != []
    ensures ReplyIn(F.ParseFrame(f)) == Some(sent[0].seqnum) && !BorrowerPanics(F.ParseFrame(f))
    ensures Downward(Consumed(l, f), sent[1..], unsent)
  {
    ReadConveys(TakesReply, l, sent, unsent);
    f := NextFrame(Unread(l)).bytes;
  }

  lemma FlushStep(m: Machine, s: P.System)
    requires Related(m, s)
    ensures m.up.loop.phase.Timer? ==>
      Related(m.(up := Fire(L.Borrower, m.up, L.FlushBuf)), P.Next(s, P.FlushRequests))
    ensures m.down.loop.phase.Timer? ==>
      Related(m.(down := Fire(L.Lender, m.down, L.FlushBuf)), P.Next(s, P.FlushReplies))
  {
    if m.up.loop.phase.Timer? {
      FlushConveys(TakesRequest, L.Borrower, m.up, s.uplink, s.borrower.outbox);
      UpFlushLinked(Upward, Downward, m, s, Fire(L.Borrower, m.up, L.FlushBuf));
    }
    if m.down.loop.phase.Timer? {
      FlushConveys(TakesReply, L.Lender, m.down, s.downlink, s.lender.outbox);
      DownFlushLinked(Upward, Downward, m, s, Fire(L.Lender, m.down, L.FlushBuf));
    }
  }

  /** Finishing a SET_ADDRESS or a write changes nothing that is under way. */
  lemma AddressSetStep(m: Machine, s: P.System)
    requires Related(m, s)
    ensures Related(m.(up := Fire(L.Borrower, m.up, L.AddressSet)), s)
  {
    IdleConveys(TakesRequest, m.up, s.uplink, s.borrower.outbox, L.AddressSet);
  }

  lemma UpDoneStep(m: Machine, s: P.System)
    requires Related(m, s) && m.up.loop.phase.Flush?
    ensures Related(m.(up := Fire(L.Borrower, m.up, L.FlushComplete)), s)
  {
    WrittenConveys(TakesRequest, L.Borrower, m.up, s.uplink, s.borrower.outbox);
  }

  lemma DownDoneStep(m: Machine, s: P.System)
    requires Related(m, s) && m.down.loop.phase.Flush?
    ensures Related(m.(down := Fire(L.Lender, m.down, L.FlushComplete)), s)
  {
    WrittenConveys(TakesReply, L.Lender, m.down, s.downlink, s.lender.outbox);
  }

  lemma RepliesStep(m: Machine, s: P.System, kind: P.Kind, reply: Bytes)
    requires Related(m, s) && Enabled(m, Replies(kind, reply))
    ensures P.Enabled(s, P.Replies(kind))
    ensures Related(Step(m, Replies(kind, reply)).m, P.Next(s, P.Replies(kind)))
  {
    AppendConveys(TakesReply, L.Lender, m.down, s.downlink, s.lender.outbox, reply, P.Queue(m.lender.done, kind)[0]);
    RepliesLinked(Upward, Downward, m, s, kind, Fire(L.Lender, m.down, L.Work(reply)));
  }

  ghost predicate Simulated(m: Machine, s: P.System, e: Event, t: P.System)
    requires Enabled(m, e)
  {
    Step(m, e).Next? && Follows(s, ActionOf(m, e), t) && Related(Step(m, e).m, t)
  }

  lemma ReadStep(m: Machine, s: P.System, e: Event) returns (t: P.System)
    requires Related(m, s) && Enabled(m, e) && (e.LenderReads? || e.BorrowerReads?)
    requires s.downlink != [] ==> P.CanReturn(s.borrower, s.downlink[0].seqnum)
    ensures Simulated(m, s, e, t)
  {
    if e.LenderReads? {
      LenderReadsStep(m, s);
      t := P.Next(s, P.LenderReceives);
    } else {
      BorrowerReadsStep(m, s);
      t := P.Next(s, P.BorrowerReceives);
    }
  }

  lemma FlushOrDone(m: Machine, s: P.System, e: Event) returns (t: P.System)
    requires Related(m, s) && Enabled(m, e)
    requires e.AddressSet? || e.UpFlush? || e.UpWritten? || e.DownFlush? || e.DownWritten?
    ensures Simulated(m, s, e, t)
  {
    t := s;
    match e
    case AddressSet => AddressSetStep(m, s);
    case UpWritten => UpDoneStep(m, s);
    case DownWritten => DownDoneStep(m, s);
    case UpFlush =>
      FlushStep(m, s);
      t := P.Next(s, P.FlushRequests);
    case DownFlush =>
      FlushStep(m, s);
      t := P.Next(s, P.FlushReplies);
  }

  /** No step breaks, and each is a step of the protocol or none. */
  lemma StepSimulates(m: Machine, s: P.System, e: Event) returns (t: P.System)
    requires Related(m, s) && Enabled(m, e) && B.Numbered(m.borrower)
    requires s.downlink != [] ==> P.CanReturn(s.borrower, s.downlink[0].seqnum)
    ensures Step(m, e).Next? && Follows(s, ActionOf(m, e), t) && Related(Step(m, e).m, t)
  {
    match e
    case HostWork(w) =>
      t := HostWorkStep(m, s, w);
    case LenderReads =>
      t := ReadStep(m, s, e);
    case BorrowerReads =>
      t := ReadStep(m, s, e);
    case Completes(job) =>
      CompletesLinked(Upward, Downward, m, s, job);
      t := P.Next(s, P.Completes(job));
    case Replies(kind, reply) =>
      RepliesStep(m, s, kind, reply);
      t := P.Next(s, P.Replies(kind));
    case _ =>
      t := FlushOrDone(m, s, e);
  }

  /** In the protocol's reachable states its replies can be returned, and numbers fit. */
  lemma InvHelps(m: Machine, s: P.System)
    requires Related(m, s) && P.Inv(s)
    ensures B.Numbered(m.borrower)
    ensures s.downlink != [] ==> P.CanReturn(s.borrower, s.downlink[0].seqnum)
  {
    InvNumbered(m, s);
    if s.downlink != [] {
      P.ReturnConserves(s, P.BorrowerReceives);
    }
  }

  // ---- Whole runs ----

  /** The events happen one after the other, up to a break if there is one. */
  ghost predicate Possible(m: Machine, es: seq<Event>)
    decreases |es|
  {
    es == [] || (Enabled(m, es[0]) && (Step(m, es[0]).Broken? || Possible(Step(m, es[0]).m, es[1..])))
  }

  ghost predicate Survives(m: Machine, es: seq<Event>)
    decreases |es|
  {
    es == [] || (Enabled(m, es[0]) && Step(m, es[0]).Next? && Survives(Step(m, es[0]).m, es[1..]))
  }

  ghost function After(m: Machine, es: seq<Event>): Machine
    requires Survives(m, es)
    decreases |es|
  {
    if es == [] then m else After(Step(m, es[0]).m, es[1..])
  }

  /** Every run of the machine goes on without breaking, and is a run of the protocol. */
  lemma {:induction false} RunSimulates(m: Machine, s: P.System, es: seq<Event>) returns (actions: seq<P.Action>)
    requires Related(m, s) && P.Inv(s) && Possible(m, es)
    ensures Survives(m, es) && R.CanRun(s, actions)
    ensures Related(After(m, es), R.Run(s, actions)) && P.Inv(R.Run(s, actions))
    decreases |es|
  {
    if es == [] {
      actions := [];
    } else {
      InvHelps(m, s);
      var t := StepSimulates(m, s, es[0]);
      var a := ActionOf(m, es[0]);
      if a.Some? {
        P.StepKeepsInv(s, a.value);
      }
      actions := RunSimulates(Step(m, es[0]).m, t, es[1..]);
      if a.Some? {
        var more := actions;
        actions := [a.value] + more;
        assert actions[1..] == more;
      }
    }
  }

  /** Every byte was read, and the lender has nothing to do. */
  predicate Silent(m: Machine) {
    && m.up.loop.phase.Solicit? && Unread(m.up) == [] && m.down.loop.phase.Solicit? && Unread(m.down) == []
    && m.lender.working == multiset{} && m.lender.done == P.IDLE_LENDER.done
  }

  lemma SilentConveysNothing<T>(carries: (Bytes, T) -> bool, l: Link, sent: seq<T>, unsent: seq<T>)
    requires Conveys(carries, l, sent, unsent) && l.loop.phase.Solicit? && Unread(l) == []
    ensures sent == [] && unsent == []
  {
    assert Unread(l) + l.loop.inFlight == [];
  }

  lemma SilentIsDrained(m: Machine, s: P.System)
    requires Related(m, s) && Silent(m)
    ensures R.Drained(s)
  {
    SilentConveysNothing(TakesRequest, m.up, s.uplink, s.borrower.outbox);
    SilentConveysNothing(TakesReply, m.down, s.downlink, s.lender.outbox);
    NothingPlaced(s);
  }

  lemma NothingPlaced(s: P.System)
    requires s.uplink == [] && s.borrower.outbox == [] && s.downlink == [] && s.lender.outbox == []
    requires s.lender.working == multiset{} && s.lender.done == P.IDLE_LENDER.done
    ensures R.Drained(s)
  {
    assert P.Pipeline(s) == [];
  }

  /** From the start, every possible run of the machine goes through and is a run of the protocol. */
  lemma MachineRunsProtocol(es: seq<Event>) returns (actions: seq<P.Action>)
    requires Possible(START, es)
    ensures Survives(START, es) && R.CanRun(P.INITIAL, actions)
    ensures Related(After(START, es), R.Run(P.INITIAL, actions)) && P.Inv(R.Run(P.INITIAL, actions))
  {
    StartRelated();
    P.InitiallyInv();
    actions := RunSimulates(START, P.INITIAL, es);
  }

  /** After any run the machine's record is the protocol's, and silence means drained. */
  lemma RecordAfter(es: seq<Event>) returns (s: P.System)
    requires Possible(START, es)
    ensures Survives(START, es) && Peers(After(START, es), s)
    ensures P.Inverse(s.borrower) && P.Conserved(s)
    ensures Silent(After(START, es)) ==> R.Drained(s)
  {
    var actions := MachineRunsProtocol(es);
    s := R.Run(P.INITIAL, actions);
    if Silent(After(START, es)) {
      SilentIsDrained(After(START, es), s);
    }
  }

  /**
   From handlers through loops, bytes, readers and dispatch: nothing ever breaks; every handle the host
   submitted is outstanding or was given back under its own number; and when all is silent, all are back.
   */
  lemma EverySubmissionReturns(es: seq<Event>)
    requires Possible(START, es)
    ensures Survives(START, es)
    ensures
      var m := After(START, es);
      && |m.submitted| == m.borrower.next
      && (forall i :: 0 <= i < |m.submitted| ==>
            if i in m.returned then i !in m.borrower.handleOf && m.returned[i] == m.submitted[i]
            else i in m.borrower.handleOf && m.borrower.handleOf[i] == m.submitted[i])
      && (Silent(m) ==> forall i :: 0 <= i < |m.submitted| ==> i in m.returned)
  {
    var s := RecordAfter(es);
    if Silent(After(START, es)) {
      R.DrainedIsAllReturned(s);
    }
  }
}
