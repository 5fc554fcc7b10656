/** The borrower's two handlers: one appends requests to the send buffer, one gives replies back. */
module BorrowHandlers {
  import opened Wrappers
  import opened Wire
  import opened FrameReader
  import opened Carried
  import F = Frames
  import P = Protocol

  /** Handles by sequence number and sequence numbers by handle, shared by the two handlers. */
  class HandleSeqnumLinker {
    var seqnums: map<P.Handle, nat>
    var handles: map<nat, P.Handle>

    constructor ()
      ensures seqnums == map[] && handles == map[]
    {
      seqnums, handles := map[], map[];
    }

    method Link(handle: P.Handle, seqnum: nat)
      modifies this
      ensures seqnums == old(seqnums)[handle := seqnum] && handles == old(handles)[seqnum := handle]
    {
      handles := handles[seqnum := handle];
      seqnums := seqnums[handle := seqnum];
    }

    /** The borrower `b`, with these maps. */
    ghost function In(b: P.Borrower): P.Borrower
      reads this
    {
      b.(seqOf := seqnums, handleOf := handles)
    }
  }

  /** The port's status bits that matter: connection, enable, reset and power; what changed; and the resume flag. */
  datatype PortStat = PortStat(connection: bool, enable: bool, reset: bool, power: bool,
                               connectionChanged: bool, resetChanged: bool, resuming: bool)

  const NO_PORT_STAT := PortStat(false, false, false, false, false, false, false)

  function ResetSuccessful(next: PortStat): bool {
    next.resetChanged && !next.reset && next.enable
  }

  /** The port is asked to reset, was not being reset before, and has neither just (dis)connected nor lost power. */
  predicate SendsReset(prev: PortStat, next: PortStat) {
    next.reset && next.connection && !prev.reset && !next.connectionChanged && (prev.power ==> next.power)
  }

  /** A work item of the host controller; `handle` of a port status is the one made up for a reset. */
  datatype Work =
    | StatWork(next: PortStat, handle: P.Handle)
    | UrbWork(urb: F.HostUrb, address: byte, handle: P.Handle, transfer: Bytes, filler: Bytes, iso: Bytes)
    | CancelWork(handle: P.Handle)

  /** SET_ADDRESS to the default address is answered here and never sent: section 9.4.6 of the USB 2.0 specification. */
  predicate IsSetAddress(w: Work) {
    w.UrbWork? && w.urb.kind.Control? && w.address == 0 && w.urb.setup[..2] == [0x00, 5]
  }

  ghost predicate InUseBelow(seqnums: map<P.Handle, nat>, handles: map<nat, P.Handle>, next: nat) {
    && (forall s :: s in handles ==> s < next)
    && (forall h :: h in seqnums ==> seqnums[h] < next)
  }

  lemma LinkInUse(seqnums: map<P.Handle, nat>, handles: map<nat, P.Handle>, handle: P.Handle, next: nat)
    requires InUseBelow(seqnums, handles, next)
    ensures InUseBelow(seqnums[handle := next], handles[next := handle], next + 1)
  {
  }

  /** The host hands over what a request needs. */
  predicate Supplied(w: Work) {
    w.UrbWork? && !IsSetAddress(w) ==>
      F.Fetched(w.urb, w.transfer, w.iso) && |w.filler| == Align8(|w.transfer|) - |w.transfer|
  }

  /** No slice of a request is out of range. */
  predicate InRange(w: Work) {
    w.UrbWork? && !IsSetAddress(w) ==> F.SlicesInRange(w.urb)
  }

  /** The frame the work item appends can be read by the lender. */
  predicate Readable(w: Work) {
    InRange(w) && (w.UrbWork? && !IsSetAddress(w) ==> F.RequestLen(w.urb) <= MAX_FRAME_LEN)
  }

  /** What the work item makes of the borrower, `prev` being the last port status. */
  function Worked(b: P.Borrower, prev: PortStat, w: Work): P.Borrower {
    match w
    case StatWork(next, handle) => if SendsReset(prev, next) then P.Assign(b, handle, P.Reset, false) else b
    case UrbWork(urb, _, handle, _, _, _) =>
      if IsSetAddress(w) then b
      else P.Assign(b, handle, JobKind(urb.kind), urb.kind.Control? && IsBlocking(urb.setup))
    case CancelWork(handle) => P.Unlinked(b, handle)
  }

  /** Sequence numbers fit 32 bits, and the counter is ahead of those in use. */
  ghost predicate Numbered(b: P.Borrower) {
    b.next < P.SEQNUM_LIMIT && InUseBelow(b.seqOf, b.handleOf, b.next)
  }

  /** The bytes the work item appends: at most one frame. */
  ghost function WorkBytes(b: P.Borrower, prev: PortStat, w: Work): Bytes
    requires Numbered(b) && Supplied(w) && InRange(w)
  {
    match w
    case StatWork(next, _) => if SendsReset(prev, next) then F.HeaderFrame(CmdPort, Success, b.next) else []
    case UrbWork(urb, _, _, transfer, filler, iso) =>
      if IsSetAddress(w) then [] else F.Request(urb, b.next, transfer, filler, iso).value
    case CancelWork(handle) =>
      if handle in b.seqOf then F.HeaderFrame(CmdUnlink, Success, b.seqOf[handle]) else []
  }

  /** `OutOfRange`: a slice of the request is, and what the code does then is undefined. */
  datatype WorkResult = SetsAddress | Processed | OutOfRange

  // ---- Resets over a run of port statuses ----

  function Before(prev: PortStat, stats: seq<PortStat>, i: nat): PortStat
    requires i <= |stats|
  {
    if i == 0 then prev else stats[i - 1]
  }

  /** The reset bit rises while the port is connected, and has neither just (dis)connected nor lost power. */
  predicate Rises(prev: PortStat, stats: seq<PortStat>, i: nat)
    requires i < |stats|
  {
    var before, now := Before(prev, stats, i), stats[i];
    !before.reset && now.reset && now.connection && !now.connectionChanged && !(before.power && !now.power)
  }

  ghost function RisingEdges(prev: PortStat, stats: seq<PortStat>): set<nat> {
    set i: nat | i < |stats| && Rises(prev, stats, i)
  }

  /** The borrower after a run of port statuses, with the handles made up for them. */
  function StatsWorked(b: P.Borrower, prev: PortStat, stats: seq<PortStat>, handles: seq<P.Handle>): P.Borrower
    requires |handles| == |stats|
  {
    if stats == [] then b
    else
      var last := |stats| - 1;
      Worked(StatsWorked(b, prev, stats[..last], handles[..last]), Before(prev, stats, last),
             StatWork(stats[last], handles[last]))
  }

  /** A run of port statuses sends exactly one reset for each rising edge, and nothing else. */
  lemma {:induction false} ResetsAreRisingEdges(
      b: P.Borrower, prev: PortStat, stats: seq<PortStat>, handles: seq<P.Handle>)
    requires |handles| == |stats|
    ensures
      var c, edges := StatsWorked(b, prev, stats, handles), |RisingEdges(prev, stats)|;
      && c.next == b.next + edges
      && c.outbox == b.outbox + seq(edges, i requires 0 <= i < edges => P.New(P.Job(b.next + i, P.Reset, false)))
  {
    if stats == [] {
      assert RisingEdges(prev, stats) == {};
      assert b.outbox + [] == b.outbox;
    } else {
      var last := |stats| - 1;
      var init := stats[..last];
      ResetsAreRisingEdges(b, prev, init, handles[..last]);
      EdgesOfInit(prev, stats);
      var edges := |RisingEdges(prev, init)|;
      if Rises(prev, stats, last) {
        var resets := seq(edges, i requires 0 <= i < edges => P.New(P.Job(b.next + i, P.Reset, false)));
        Assoc(b.outbox, resets, [P.New(P.Job(b.next + edges, P.Reset, false))]);
        assert seq(edges + 1, i requires 0 <= i < edges + 1 => P.New(P.Job(b.next + i, P.Reset, false))) ==
               resets + [P.New(P.Job(b.next + edges, P.Reset, false))];
      }
    }
  }

  lemma EdgesOfInit(prev: PortStat, stats: seq<PortStat>)
    requires stats != []
    ensures
      var last := |stats| - 1;
      |RisingEdges(prev, stats)| == |RisingEdges(prev, stats[..last])| + if Rises(prev, stats, last) then 1 else 0
  {
    var last := |stats| - 1;
    var init := stats[..last];
    forall i: nat | i < last
      ensures Rises(prev, stats, i) <==> Rises(prev, init, i)
    {
    }
    assert last !in RisingEdges(prev, init);
    assert RisingEdges(prev, stats) == RisingEdges(prev, init) + if Rises(prev, stats, last) then {last} else {};
  }

  class BorrowSendHandler {
    const linker: HandleSeqnumLinker
    var buf: Bytes
    var curSeq: nat
    var prev: PortStat
    var addr: byte
    /** What the buffered frames mean. */
    ghost var outbox: seq<P.Frame>

    ghost function Now(): P.Borrower
      reads this, linker
    {
      linker.In(P.Borrower(curSeq, map[], map[], outbox))
    }

    ghost predicate Valid()
      reads this, linker
    {
      Numbered(Now())
    }

    /** The buffer holds exactly the frames of the outbox. */
    ghost predicate Faithful()
      reads this
    {
      Encodes(CarriesRequest, buf, outbox)
    }

    constructor (linker: HandleSeqnumLinker)
      requires linker.seqnums == map[] && linker.handles == map[]
      ensures this.linker == linker && Valid() && Faithful() && Now() == P.INITIAL.borrower
      ensures buf == [] && prev == NO_PORT_STAT && addr == 0
    {
      this.linker := linker;
      buf, curSeq, prev, addr, outbox := [], 0, NO_PORT_STAT, 0, [];
    }

    /** Takes the next sequence number for a handle. */
    method Number(handle: P.Handle) returns (seqnum: nat)
      requires Valid() && curSeq + 1 < P.SEQNUM_LIMIT
      modifies this`curSeq, linker
      ensures Valid() && seqnum == old(curSeq) && curSeq == seqnum + 1 && seqnum !in old(linker.handles)
      ensures linker.seqnums == old(linker.seqnums)[handle := seqnum]
      ensures linker.handles == old(linker.handles)[seqnum := handle]
    {
      LinkInUse(linker.seqnums, linker.handles, handle, curSeq);
      seqnum := curSeq;
      curSeq := curSeq + 1;
      linker.Link(handle, seqnum);
    }

    /** Appends a frame; `item` is what it means. */
    method Put(frame: Bytes, ghost item: P.Frame)
      modifies this`buf, this`outbox
      ensures buf == old(buf) + frame && outbox == old(outbox) + [item]
      ensures old(Faithful()) && CarriesRequest(frame, item) ==> Faithful()
    {
      if Faithful() && CarriesRequest(frame, item) {
        EncodesAppend(CarriesRequest, buf, outbox, frame, item);
      }
      buf, outbox := buf + frame, outbox + [item];
    }

    /** The buffer stays faithful as long as requests are readable. */
    method ProcessUrb(urb: F.HostUrb, handle: P.Handle, transfer: Bytes, filler: Bytes, iso: Bytes)
      returns (inRange: bool)
      requires Valid() && curSeq + 1 < P.SEQNUM_LIMIT
      requires F.Fetched(urb, transfer, iso) && |filler| == Align8(|transfer|) - |transfer|
      modifies this, linker
      ensures Valid() && prev == old(prev) && addr == old(addr)
      ensures inRange == F.SlicesInRange(urb)
      ensures inRange ==>
        && Now() == P.Assign(old(Now()), handle, JobKind(urb.kind), urb.kind.Control? && IsBlocking(urb.setup))
        && buf == old(buf) + F.Request(urb, old(curSeq), transfer, filler, iso).value
        && (old(Faithful()) && F.RequestLen(urb) <= MAX_FRAME_LEN ==> Faithful())
      ensures !inRange ==> buf == old(buf)
    {
      var nextSeq := Number(handle);
      RequestCarries(urb, nextSeq, transfer, filler, iso);
      var frame := F.Request(urb, nextSeq, transfer, filler, iso);
      inRange := frame.Some?;
      if inRange {
        Put(frame.value, P.New(RequestJob(urb, nextSeq)));
      }
    }

    /** A handle that is not outstanding anymore is not unlinked. */
    method CancelUrb(handle: P.Handle)
      requires Valid()
      modifies this`buf, this`outbox
      ensures Valid() && Now() == P.Unlinked(old(Now()), handle)
      ensures buf == if handle in linker.seqnums
                     then old(buf) + F.HeaderFrame(CmdUnlink, Success, linker.seqnums[handle]) else old(buf)
      ensures old(Faithful()) ==> Faithful()
    {
      if handle in linker.seqnums {
        var seqnum := linker.seqnums[handle];
        HeaderCarries(seqnum);
        Put(F.HeaderFrame(CmdUnlink, Success, seqnum), P.Unlink(seqnum));
      }
    }

    /** A reset is numbered like a request, under a made-up `handle`, which must not be outstanding. */
    method SendReset(handle: P.Handle)
      requires Valid() && curSeq + 1 < P.SEQNUM_LIMIT && handle !in linker.seqnums
      modifies this`buf, this`outbox, this`curSeq, linker
      ensures Valid() && Now() == P.Assign(old(Now()), handle, P.Reset, false)
      ensures buf == old(buf) + F.HeaderFrame(CmdPort, Success, old(curSeq))
      ensures old(Faithful()) ==> Faithful()
    {
      var nextSeqnum := Number(handle);
      HeaderCarries(nextSeqnum);
      Put(F.HeaderFrame(CmdPort, Success, nextSeqnum), P.New(P.Job(nextSeqnum, P.Reset, false)));
    }

    method OnPortStat(next: PortStat, handle: P.Handle)
      requires Valid()
      requires SendsReset(prev, next) ==> handle !in linker.seqnums && curSeq + 1 < P.SEQNUM_LIMIT
      modifies this, linker
      ensures Valid() && prev == next
      ensures
        if next.reset && !old(prev).reset && next.connection && !next.connectionChanged
           && !(old(prev).power && !next.power)
        then
          && Now() == P.Assign(old(Now()), handle, P.Reset, false)
          && buf == old(buf) + F.HeaderFrame(CmdPort, Success, old(curSeq))
        else
          Now() == old(Now()) && buf == old(buf)
      ensures addr == if next.connectionChanged then 0xff
                      else if next.resetChanged && !next.reset && next.enable then 0
                      else old(addr)
      ensures old(Faithful()) ==> Faithful()
    {
      var powerOff := prev.power && !next.power;
      var sendPortReset := !prev.reset && next.reset && next.connection;
      if next.connectionChanged {
        addr := 0xff;
      } else if ResetSuccessful(next) {
        addr := 0;
      } else if powerOff {
      } else if sendPortReset {
        SendReset(handle);
      }
      prev := next;
    }

    /** The address is the low byte of the request's value. */
    method SetAddress(setup: SetupPacket)
      modifies this`addr
      ensures addr == Un16(setup, 2) % 0x100
    {
      addr := Un16(setup, 2) % 0x100;
    }

    /** Tells whether a SET_ADDRESS is to be answered. */
    method HandleWork(w: Work) returns (r: WorkResult)
      requires Valid() && curSeq + 1 < P.SEQNUM_LIMIT && Supplied(w)
      requires w.StatWork? && SendsReset(prev, w.next) ==> w.handle !in linker.seqnums
      modifies this, linker
      ensures Valid()
      ensures r == if IsSetAddress(w) then SetsAddress else if InRange(w) then Processed else OutOfRange
      ensures r.SetsAddress? <==>
        w.UrbWork? && w.urb.kind == Control && w.address == 0 && w.urb.setup[0] == 0x00 && w.urb.setup[1] == 0x05
      ensures !r.OutOfRange? ==>
        && Now() == Worked(old(Now()), old(prev), w)
        && buf == old(buf) + WorkBytes(old(Now()), old(prev), w)
        && prev == if w.StatWork? then w.next else old(prev)
      ensures old(Faithful()) && Readable(w) ==> Faithful()
      ensures r.SetsAddress? ==> addr == Un16(w.urb.setup, 2) % 0x100
    {
      r := Processed;
      match w
      case StatWork(next, handle) =>
        OnPortStat(next, handle);
      case UrbWork(urb, _, handle, transfer, filler, iso) =>
        if IsSetAddress(w) {
          SetAddress(urb.setup);
          r := SetsAddress;
        } else {
          var inRange := ProcessUrb(urb, handle, transfer, filler, iso);
          r := if inRange then Processed else OutOfRange;
        }
      case CancelWork(handle) =>
        CancelUrb(handle);
    }

    method FlushBuf() returns (bytes: Bytes)
      modifies this`buf, this`outbox
      ensures bytes == old(buf) && buf == []
      ensures Now() == old(Now()).(outbox := []) && Faithful()
      ensures old(Faithful()) ==> Encodes(CarriesRequest, bytes, old(outbox))
    {
      bytes := buf;
      buf, outbox := [], [];
      EncodesNothing(CarriesRequest);
    }
  }

  class BorrowRecvHandler {
    const linker: HandleSeqnumLinker

    constructor (linker: HandleSeqnumLinker)
      ensures this.linker == linker
    {
      this.linker := linker;
    }

    /** Takes both entries out; both lookups are unwrapped. */
    method TakeHandle(seqnum: nat, ghost b: P.Borrower) returns (handle: P.Handle)
      requires P.CanReturn(linker.In(b), seqnum)
      modifies linker
      ensures linker.In(b) == P.Returned(old(linker.In(b)), seqnum)
      ensures handle == old(linker.handles)[seqnum]
    {
      handle := linker.handles[seqnum];
      linker.handles := linker.handles - {seqnum};
      linker.seqnums := linker.seqnums - {handle};
    }

    /** `giveback` is None where splitting off the transfer would panic. */
    method UrbReply(seqnum: nat, u: UrbHeader, data: Bytes, ghost b: P.Borrower)
      returns (handle: P.Handle, giveback: Option<F.Giveback>)
      requires P.CanReturn(linker.In(b), seqnum)
      modifies linker
      ensures linker.In(b) == P.Returned(old(linker.In(b)), seqnum)
      ensures handle == old(linker.handles)[seqnum] && giveback == F.UrbReply(u, data)
    {
      handle := TakeHandle(seqnum, b);
      giveback := F.UrbReply(u, data);
    }

    method DeviceReset(seqnum: nat, ghost b: P.Borrower)
      requires P.CanReturn(linker.In(b), seqnum)
      modifies linker
      ensures linker.In(b) == P.Returned(old(linker.In(b)), seqnum)
    {
      var _ := TakeHandle(seqnum, b);
    }
  }
}
