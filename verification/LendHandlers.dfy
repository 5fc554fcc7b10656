/** The lender's two handlers, and the sets and queues of its receiving loop. */
module LendHandlers {
  import opened Wrappers
  import opened Wire
  import opened FrameReader
  import opened Carried
  import opened CancelTokens
  import F = Frames
  import P = Protocol

  // ---- Requests in progress, one set per kind ----

  datatype InProgress = InProgress(resets: multiset<P.Job>, ctrls: multiset<P.Job>, ints: multiset<P.Job>,
                                   isos: multiset<P.Job>, bulks: multiset<P.Job>)

  const IDLE := InProgress(multiset{}, multiset{}, multiset{}, multiset{}, multiset{})

  ghost function Total(w: InProgress): multiset<P.Job> {
    w.resets + w.ctrls + w.ints + w.isos + w.bulks
  }

  function Of(w: InProgress, kind: P.Kind): multiset<P.Job> {
    match kind
    case Reset => w.resets
    case Ctrl => w.ctrls
    case Int => w.ints
    case Iso => w.isos
    case Bulk => w.bulks
  }

  function Set(w: InProgress, kind: P.Kind, jobs: multiset<P.Job>): InProgress {
    match kind
    case Reset => w.(resets := jobs)
    case Ctrl => w.(ctrls := jobs)
    case Int => w.(ints := jobs)
    case Iso => w.(isos := jobs)
    case Bulk => w.(bulks := jobs)
  }

  lemma PushTotal(w: InProgress, job: P.Job)
    ensures Total(Set(w, job.kind, Of(w, job.kind) + multiset{job})) == Total(w) + multiset{job}
  {
  }

  lemma TakeTotal(w: InProgress, job: P.Job)
    requires job in Of(w, job.kind)
    ensures Total(Set(w, job.kind, Of(w, job.kind) - multiset{job})) == Total(w) - multiset{job}
  {
  }

  /** What a URB request's payload is cut into: the device buffer and the packet descriptors. None is a panic. */
  function Sliced(u: UrbHeader, data: Bytes): Option<(F.DeviceBuf, Bytes)> {
    match u.kind
    case Isochronous => F.NewIso(u, data)
    case Control =>
      (match F.NewCtrl(u, data)
       case None => None
       case Some(buf) => Some((buf, [])))
    case _ => Some((F.NewTransfer(u, data), []))
  }

  /**
   Whatever the payload, slicing panics exactly for isochronous requests whose payload is not padded
   transfer and descriptors, outgoing control requests whose payload is not as long as announced, and
   incoming ones too long for a scratch block.
   */
  lemma SlicedPanicsIff(u: UrbHeader, data: Bytes)
    ensures Sliced(u, data).None? <==>
      var padded := (u.actualTransferLen + 7) / 8 * 8;
      var announced := u.ctrlPacket[6] as int + 0x100 * u.ctrlPacket[7] as int;
      match u.kind
      case Isochronous => |data| != (if u.endpoint < 0x80 then padded else 0) + 8 * u.isoPacketCount
      case Control => if u.endpoint < 0x80 then |data| + 8 != (announced + 8 + 7) / 8 * 8 else 8 + padded > 65536
      case _ => false
  {
  }

  /** The device gets what the host asked for; a control request's setup packet comes in front. */
  predicate DeviceGets(urb: F.HostUrb, transfer: Bytes, iso: Bytes, r: Option<(F.DeviceBuf, Bytes)>) {
    var front := if urb.kind == Control then urb.setup else [];
    && r.Some? && r.value.1 == (if urb.kind == Isochronous then iso else [])
    && if IsOut(urb.endpoint) then r.value.0.Outgoing? && r.value.0.bytes == front + transfer
       else r.value.0 == F.Incoming(front, |front| + urb.bufferLength, |front| + Align8(urb.bufferLength))
  }

  /**
   From the host's request to the device's buffer, through the frame: the device gets what was asked for
   exactly when length and count fit 16 bits, the frame has at most 65528 bytes, and for control requests
   the setup packet announces the length, or the room fits a scratch block.
   */
  lemma RequestReachesDevice(urb: F.HostUrb, seqnum: u32, transfer: Bytes, filler: Bytes, iso: Bytes)
    requires F.Fetched(urb, transfer, iso) && |filler| == Align8(|transfer|) - |transfer|
    requires urb.kind == Control ==> urb.packetCount == 0
    ensures
      var f, len := F.Request(urb, seqnum, transfer, filler, iso), urb.bufferLength;
      var announced := urb.setup[6] as int + 0x100 * urb.setup[7] as int;
      f.Some? && IsFrame(f.value) && F.ParseFrame(f.value).UrbFrame?
      && DeviceGets(urb, transfer, iso, Sliced(F.ParseFrame(f.value).header, F.ParseFrame(f.value).data))
      <==>
      && len < 0x1_0000 && urb.packetCount < 0x1_0000 && F.RequestLen(urb) <= 65528
      && (urb.kind == Control ==> if IsOut(urb.endpoint) then Align8(announced) == Align8(len) else len <= 65528)
  {
    F.SlicesInRangeIff(urb);
    if F.SlicesInRange(urb) {
      F.RequestParses(urb, seqnum, transfer, filler, iso);
      SlicedAsAsked(urb, seqnum, transfer, filler, iso);
    }
  }

  /** The same for the slicing alone. */
  lemma SlicedAsAsked(urb: F.HostUrb, seqnum: u32, transfer: Bytes, filler: Bytes, iso: Bytes)
    requires F.Fetched(urb, transfer, iso) && |filler| == Align8(|transfer|) - |transfer| && F.SlicesInRange(urb)
    requires urb.kind == Control ==> urb.packetCount == 0
    ensures
      var len, announced := urb.bufferLength, urb.setup[6] as int + 0x100 * urb.setup[7] as int;
      DeviceGets(urb, transfer, iso, Sliced(F.RequestHeader(urb), transfer + filler + iso))
      <==>
      && len < 0x1_0000 && urb.packetCount < 0x1_0000
      && (urb.kind == Control ==> if IsOut(urb.endpoint) then Align8(announced) == Align8(len) else len <= 65528)
  {
    F.SlicesInRangeIff(urb);
    if urb.kind == Control {
      F.CtrlRequestRoundTrip(urb, transfer, filler, iso);
    } else {
      F.RequestPayloadRoundTrip(urb, seqnum, transfer, filler, iso);
    }
  }

  /**
   What a frame started: a transfer with its token, buffer and descriptors; something without a token
   (a reset, a blocking control request, a cancel); or a panic on a malformed payload.
   */
  datatype Started = Transfer(cancel: Token, buf: F.DeviceBuf, iso: Bytes) | NoTransfer | Panicked

  class LendRecvHandler {
    const tokens: TokenTables
    var inProgress: InProgress
    var done: P.Queues
    ghost var held: map<nat, Token>
    ghost var received: nat

    /** The lender with these sets and queues, and `outbox` unsent. */
    ghost function Now(outbox: seq<P.Job>): P.Lender
      reads this, tokens
    {
      P.Lender(Total(inProgress), done, tokens.Now(), held, outbox, received)
    }

    constructor (tokens: TokenTables)
      requires tokens.Now() == NO_TOKENS
      ensures this.tokens == tokens && Now([]) == P.IDLE_LENDER
    {
      this.tokens := tokens;
      inProgress, done, held, received := IDLE, P.Queues([], [], [], [], []), map[], 0;
    }

    method Push(job: P.Job)
      modifies this`inProgress
      ensures Total(inProgress) == old(Total(inProgress)) + multiset{job}
      ensures job in Of(inProgress, job.kind)
    {
      PushTotal(inProgress, job);
      inProgress := Set(inProgress, job.kind, Of(inProgress, job.kind) + multiset{job});
    }

    /** A transfer: token first, then the payload. */
    method NewTransfer(job: P.Job, u: UrbHeader, data: Bytes, ghost outbox: seq<P.Job>) returns (r: Started)
      requires P.IsTransfer(job) && Clean(tokens.Now())
      modifies this, tokens
      ensures Clean(tokens.Now())
      ensures r.Panicked? <==> Sliced(u, data).None?
      ensures !r.Panicked? ==>
        && Now(outbox) == P.Start(old(Now(outbox)), job)
        && r == Transfer(NextToken(old(tokens.Now())), Sliced(u, data).value.0, Sliced(u, data).value.1)
        && r.cancel !in tokens.cancelled
    {
      var cancel := tokens.RegisterCancelToken(job.seqnum);
      match Sliced(u, data)
      case None =>
        r := Panicked;
      case Some((buf, iso)) =>
        Push(job);
        held, received := held[job.seqnum := cancel], received + 1;
        r := Transfer(cancel, buf, iso);
    }

    /** One received frame, as the protocol receives it, unless its payload makes the lender panic. */
    method OnFrame(p: F.Parsed, ghost outbox: seq<P.Job>) returns (r: Started)
      requires RequestIn(p).Some? && Clean(tokens.Now())
      modifies this, tokens
      ensures Clean(tokens.Now())
      ensures r.Panicked? <==> p.UrbFrame? && P.IsTransfer(JobOf(p.seqnum, p.header)) && Sliced(p.header, p.data).None?
      ensures !r.Panicked? ==> Now(outbox) == P.Receive(old(Now(outbox)), RequestIn(p).value)
      ensures r.Transfer? <==>
        && p.UrbFrame? && Sliced(p.header, p.data).Some?
        && !(p.header.kind == Control && p.header.ctrlPacket[..2] in [[0x00, 0x09], [0x01, 0x0B], [0x02, 0x01]])
      ensures r.Transfer? ==>
        && Sliced(p.header, p.data) == Some((r.buf, r.iso)) && r.cancel !in tokens.cancelled
        && p.seqnum in tokens.activeTransfers && tokens.activeTransfers[p.seqnum] == r.cancel
    {
      r := NoTransfer;
      match p
      case UrbFrame(seqnum, u, data) =>
        var job := JobOf(seqnum, u);
        if P.IsTransfer(job) {
          r := NewTransfer(job, u, data, outbox);
        } else {
          Push(job);
          received := received + 1;
        }
      case PortReset(seqnum) =>
        Push(P.Job(seqnum, P.Reset, false));
        received := received + 1;
      case Unlink(seqnum) =>
        tokens.CancelUrb(seqnum);
    }

    /** A job leaves its set and joins the queue of its kind. */
    method OnCompleted(job: P.Job, ghost outbox: seq<P.Job>)
      requires job in Of(inProgress, job.kind)
      modifies this
      ensures Now(outbox) == P.Complete(old(Now(outbox)), job)
    {
      TakeTotal(inProgress, job);
      inProgress := Set(inProgress, job.kind, Of(inProgress, job.kind) - multiset{job});
      done := P.SetQueue(done, job.kind, P.Queue(done, job.kind) + [job]);
      held := held - {job.seqnum};
    }
  }

  // ---- Replies ----

  /** How a transfer ended: with a status to report, or with an error that ends the connection. */
  datatype Ended = Ended(status: TransferStatus) | Fatal

  class LendSendHandler {
    const tokens: TokenTables
    var buf: Bytes
    /** What the buffered frames mean. */
    ghost var outbox: seq<P.Job>

    /** The lender `l`, with these tokens and this outbox. */
    ghost function In(l: P.Lender): P.Lender
      reads this, tokens
    {
      l.(tokens := tokens.Now(), outbox := outbox)
    }

    ghost predicate Faithful()
      reads this
    {
      Encodes(CarriesReply, buf, outbox)
    }

    constructor (tokens: TokenTables)
      ensures this.tokens == tokens && buf == [] && outbox == [] && Faithful()
    {
      this.tokens := tokens;
      buf, outbox := [], [];
    }

    /** The reply is appended, and the next flush will carry it, if it is readable. */
    twostate predicate Replied(l: P.Lender, kind: P.Kind, reply: Bytes)
      requires P.Queue(l.done, kind) != []
      reads this, tokens
    {
      && In(l) == P.SendReply(old(In(l)), kind).(done := l.done)
      && buf == old(buf) + reply
      && (old(Faithful()) && |reply| <= MAX_FRAME_LEN ==> Faithful())
    }

    /** Only the token is given up; the loop ends with the error. */
    twostate predicate Failed(l: P.Lender, job: P.Job)
      reads this, tokens
    {
      In(l) == old(In(l)).(tokens := Deregister(old(tokens.Now()), job.seqnum)) && buf == old(buf)
    }

    method PutReply(kind: TransferKind, endpoint: byte, interval: u16, seqnum: u32, status: TransferStatus,
                    res: F.ResultData, iso: Bytes, numPackets: u16, numErrors: u16, ghost blocking: bool)
      requires F.Directed(res, endpoint) && |iso| % 8 == 0
      modifies this`buf, this`outbox
      ensures
        var reply := F.Reply(kind, endpoint, interval, status, seqnum, res, iso, numPackets, numErrors);
        && buf == old(buf) + reply
        && outbox == old(outbox) + [P.Job(seqnum, JobKind(kind), blocking)]
        && (old(Faithful()) && |reply| <= MAX_FRAME_LEN ==> Faithful())
    {
      var reply := F.Reply(kind, endpoint, interval, status, seqnum, res, iso, numPackets, numErrors);
      ghost var job := P.Job(seqnum, JobKind(kind), blocking);
      if Faithful() && |reply| <= MAX_FRAME_LEN {
        ReplyCarries(kind, endpoint, interval, status, seqnum, res, iso, numPackets, numErrors, blocking);
        EncodesAppend(CarriesReply, buf, outbox, reply, job);
      }
      buf := buf + reply;
      outbox := outbox + [job];
    }

    method Completed(job: P.Job, kind: TransferKind, endpoint: byte, interval: u16, ended: Ended,
                     res: F.ResultData, iso: Bytes, numPackets: u16, numErrors: u16, ghost l: P.Lender)
      returns (ok: bool)
      requires job.kind == JobKind(kind) && job.seqnum < 0x1_0000_0000
      requires P.Queue(l.done, job.kind) != [] && P.Queue(l.done, job.kind)[0] == job
      requires Clean(tokens.Now()) && F.Directed(res, endpoint) && |iso| % 8 == 0
      modifies this, tokens
      ensures Clean(tokens.Now()) && ok == ended.Ended?
      ensures ok ==>
        Replied(l, job.kind,
                F.Reply(kind, endpoint, interval, ended.status, job.seqnum,
                        res, iso, numPackets, numErrors))
      ensures !ok ==> Failed(l, job)
    {
      tokens.DeregisterToken(job.seqnum);
      match ended
      case Fatal =>
        ok := false;
      case Ended(status) =>
        PutReply(kind, endpoint, interval, job.seqnum, status, res, iso, numPackets, numErrors, job.blocking);
        ok := true;
    }

    method IsoCompleted(job: P.Job, res: F.ResultData, endpoint: byte, interval: u16, rawIsoBuf: Bytes,
                        numErrors: u16, numIsoPackets: u16, ended: Ended, ghost l: P.Lender)
      returns (ok: bool)
      requires job.kind == P.Iso && job.seqnum < 0x1_0000_0000 && l.done.isos != [] && l.done.isos[0] == job
      requires Clean(tokens.Now()) && F.Directed(res, endpoint)
      requires |rawIsoBuf| == numIsoPackets * ISO_PACKET_LEN
      modifies this, tokens
      ensures Clean(tokens.Now()) && ok == ended.Ended?
      ensures ok ==>
        Replied(l, P.Iso,
                F.Reply(Isochronous, endpoint, interval, ended.status, job.seqnum,
                        res, rawIsoBuf, numIsoPackets, numErrors))
      ensures !ok ==> Failed(l, job)
    {
      ok := Completed(job, Isochronous, endpoint, interval, ended, res, rawIsoBuf, numIsoPackets, numErrors, l);
    }

    method IntCompleted(job: P.Job, res: F.ResultData, endpoint: byte, interval: u16, ended: Ended, ghost l: P.Lender)
      returns (ok: bool)
      requires job.kind == P.Int && job.seqnum < 0x1_0000_0000 && l.done.ints != [] && l.done.ints[0] == job
      requires Clean(tokens.Now()) && F.Directed(res, endpoint)
      modifies this, tokens
      ensures Clean(tokens.Now()) && ok == ended.Ended?
      ensures ok ==>
        Replied(l, P.Int, F.Reply(Interrupt, endpoint, interval, ended.status, job.seqnum, res, [], 0, 0))
      ensures !ok ==> Failed(l, job)
    {
      ok := Completed(job, Interrupt, endpoint, interval, ended, res, [], 0, 0, l);
    }

    method CtrlCompleted(job: P.Job, res: F.ResultData, endpoint: byte, ended: Ended, ghost l: P.Lender)
      returns (ok: bool)
      requires job.kind == P.Ctrl && job.seqnum < 0x1_0000_0000 && l.done.ctrls != [] && l.done.ctrls[0] == job
      requires Clean(tokens.Now()) && F.Directed(res, endpoint)
      modifies this, tokens
      ensures Clean(tokens.Now()) && ok == ended.Ended?
      ensures ok ==>
        Replied(l, P.Ctrl, F.Reply(Control, endpoint, 0, ended.status, job.seqnum, res, [], 0, 0))
      ensures !ok ==> Failed(l, job)
    {
      ok := Completed(job, Control, endpoint, 0, ended, res, [], 0, 0, l);
    }

    method BulkCompleted(job: P.Job, res: F.ResultData, endpoint: byte, ended: Ended, ghost l: P.Lender)
      returns (ok: bool)
      requires job.kind == P.Bulk && job.seqnum < 0x1_0000_0000 && l.done.bulks != [] && l.done.bulks[0] == job
      requires Clean(tokens.Now()) && F.Directed(res, endpoint)
      modifies this, tokens
      ensures Clean(tokens.Now()) && ok == ended.Ended?
      ensures ok ==>
        Replied(l, P.Bulk, F.Reply(Bulk, endpoint, 0, ended.status, job.seqnum, res, [], 0, 0))
      ensures !ok ==> Failed(l, job)
    {
      ok := Completed(job, Bulk, endpoint, 0, ended, res, [], 0, 0, l);
    }

    /** Resets hold no token. */
    method DeviceResetted(job: P.Job, succeeded: bool, ghost l: P.Lender) returns (ok: bool)
      requires job.kind == P.Reset && job.seqnum < 0x1_0000_0000 && l.done.resets != [] && l.done.resets[0] == job
      modifies this`buf, this`outbox
      ensures ok == succeeded
      ensures if ok then In(l) == P.SendReply(old(In(l)), P.Reset).(done := l.done) else In(l) == old(In(l))
      ensures buf == if ok then old(buf) + F.HeaderFrame(RetPort, Success, job.seqnum) else old(buf)
      ensures old(Faithful()) ==> Faithful()
    {
      ok := succeeded;
      if succeeded {
        var header := F.HeaderFrame(RetPort, Success, job.seqnum);
        HeaderCarries(job.seqnum);
        if Faithful() {
          assert CarriesReply(header, P.Job(job.seqnum, P.Reset, job.blocking));
          EncodesAppend(CarriesReply, buf, outbox, header, job);
        }
        buf := buf + header;
        outbox := outbox + [job];
      }
    }

    method FlushBuf() returns (bytes: Bytes)
      modifies this`buf, this`outbox
      ensures bytes == old(buf) && buf == [] && outbox == [] && Faithful()
      ensures old(Faithful()) ==> Encodes(CarriesReply, bytes, old(outbox))
    {
      bytes := buf;
      buf, outbox := [], [];
      EncodesNothing(CarriesReply);
    }
  }
}
