/**
 Requests and replies as frames: what the borrower lays out the lender slices, and what the
 lender lays out the borrower slices. Transfer bytes travel only towards the side that reads them.
 */
module Frames {
  import opened Wrappers
  import opened Wire
  import opened FrameReader

  // ---- Parsing a received frame ----

  datatype AbortableError = InvalidData | DeviceDisconnected | DeviceProto | Oops

  datatype Parsed =
    | UrbFrame(seqnum: u32, header: UrbHeader, data: Bytes)
    | PortReset(seqnum: u32)
    | Unlink(seqnum: u32)
    | Abort(error: AbortableError)
    | Unimplemented

  /** The payload read as a URB header and its data. */
  function SplitUrb(seqnum: u32, payload: Bytes): Parsed {
    if |payload| < URB_HEADER_LEN || DecodeUrbHeader(payload).None? then Abort(InvalidData)
    else UrbFrame(seqnum, DecodeUrbHeader(payload).value, payload[URB_HEADER_LEN..])
  }

  function ParseStatus(status: Status, success: Parsed): Parsed {
    match status
    case Success => success
    case DevErr => Abort(DeviceProto)
    case NoDev => Abort(DeviceDisconnected)
    case Proto => Abort(Oops)
    case _ => Unimplemented
  }

  function ParseFrame(frame: Bytes): Parsed
    requires IsFrame(frame)
  {
    var Header(_, command, status, seqnum) := DecodeHeader(frame).value;
    var payload := frame[HEADER_LEN..];
    match command
    case RetSubmit => ParseStatus(status, SplitUrb(seqnum, payload))
    case CmdSubmit => SplitUrb(seqnum, payload)
    case CmdUnlink => Unlink(seqnum)
    case CmdPort => PortReset(seqnum)
    case RetPort => ParseStatus(status, PortReset(seqnum))
  }

  /**
   What the bytes of a header make of a frame. Of replies (commands 3 and 4) only successful ones are
   read: a device error, a missing device and a protocol error abort, and no other status is implemented.
   Requests (commands 0, 1 and 2) are read whatever their status says.
   */
  lemma HeaderDecides(f: Bytes)
    requires IsFrame(f)
    ensures f[2] == 1 ==> ParseFrame(f) == Unlink(Un32(f, 4))
    ensures f[2] == 2 || (f[2] == 4 && f[3] == 0) ==> ParseFrame(f) == PortReset(Un32(f, 4))
    ensures f[2] == 0 || (f[2] == 3 && f[3] == 0) ==>
      ParseFrame(f) == (if |f| < 32 || DecodeUrbHeader(f[8..]).None? then Abort(InvalidData)
                        else UrbFrame(Un32(f, 4), DecodeUrbHeader(f[8..]).value, f[32..]))
    ensures f[2] in [3, 4] && f[3] != 0 ==>
      ParseFrame(f) == (if f[3] == 3 then Abort(DeviceProto)
                        else if f[3] == 4 then Abort(DeviceDisconnected)
                        else if f[3] == 8 then Abort(Oops)
                        else Unimplemented)
    ensures f[2] <= 4 && f[3] <= 8
  {
    if |f| >= 32 {
      assert f[HEADER_LEN..][URB_HEADER_LEN..] == f[32..];
    }
  }

  // ---- Frames without payload ----

  function HeaderFrame(command: Command, status: Status, seqnum: u32): (f: Bytes)
    ensures |f| == HEADER_LEN
  {
    EncodeHeader(Header(CompressFrameLen(HEADER_LEN), command, status, seqnum))
  }

  lemma HeaderFrameParses(command: Command, status: Status, seqnum: u32)
    ensures IsFrame(HeaderFrame(command, status, seqnum))
    ensures command.CmdUnlink? ==> ParseFrame(HeaderFrame(command, status, seqnum)) == Unlink(seqnum)
    ensures command.CmdPort? || (command.RetPort? && status.Success?) ==>
      ParseFrame(HeaderFrame(command, status, seqnum)) == PortReset(seqnum)
  {
  }

  // ---- Frames with a URB ----

  /** Transfer bytes, their padding, and the descriptors of isochronous packets. */
  function UrbFrameBytes(command: Command, seqnum: u32, u: UrbHeader, transfer: Bytes, pad: Bytes, iso: Bytes)
    : (f: Bytes)
    ensures |f| == HEADER_LEN + URB_HEADER_LEN + |transfer| + |pad| + |iso|
  {
    var len := HEADER_LEN + URB_HEADER_LEN + |transfer| + |pad| + |iso|;
    EncodeHeader(Header(CompressFrameLen(len), command, Success, seqnum))
    + (EncodeUrbHeader(u) + (transfer + pad + iso))
  }

  /** A whole number of words is a frame exactly up to 65528 bytes, and then it parses to what it was made of. */
  lemma UrbFrameParses(command: Command, seqnum: u32, u: UrbHeader, transfer: Bytes, pad: Bytes, iso: Bytes)
    requires command.CmdSubmit? || command.RetSubmit?
    requires (|transfer| + |pad| + |iso|) % 8 == 0
    ensures
      var f := UrbFrameBytes(command, seqnum, u, transfer, pad, iso);
      && (IsFrame(f) <==> |f| <= MAX_FRAME_LEN)
      && (IsFrame(f) ==> ParseFrame(f) == UrbFrame(seqnum, u, transfer + pad + iso))
  {
    var data := transfer + pad + iso;
    var payload := EncodeUrbHeader(u) + data;
    var f := UrbFrameBytes(command, seqnum, u, transfer, pad, iso);
    HeaderRoundTrip(Header(CompressFrameLen(|f|), command, Success, seqnum), payload);
    UrbHeaderRoundTrip(u, data);
    assert f[HEADER_LEN..] == payload;
    assert payload[URB_HEADER_LEN..] == data;
  }

  function Truncate(b: Bytes, n: nat): Bytes {
    if n <= |b| then b[..n] else b
  }

  // ---- Requests: borrower to lender ----

  /** A request block of the host controller. Its length, count and interval may be wider than 16 bits. */
  datatype HostUrb = HostUrb(
    kind: TransferKind,
    endpoint: byte,
    bufferLength: nat,
    packetCount: nat,
    interval: nat,
    flags: u16,
    setup: SetupPacket)

  /** A cast to 16 bits drops the rest. */
  function Cast16(n: nat): u16 {
    n % 0x1_0000
  }

  const URB_NO_TRANSFER_DMA_MAP: nat := 4

  function RequestHeader(urb: HostUrb): UrbHeader {
    AndBound(urb.flags, 0xFFFF - URB_NO_TRANSFER_DMA_MAP);
    UrbHeader(Cast16(urb.bufferLength), Cast16(urb.packetCount), urb.endpoint, urb.kind, Cast16(urb.interval), Pending,
              And(urb.flags, 0xFFFF - URB_NO_TRANSFER_DMA_MAP), 0, urb.setup)
  }

  /** The DMA mapping flag, which means nothing to the other host, is cleared and every other flag kept. */
  lemma {:induction false} DmaFlagCleared(urb: HostUrb)
    ensures
      RequestHeader(urb).flags ==
      urb.flags - if urb.flags / URB_NO_TRANSFER_DMA_MAP % 2 == 1 then URB_NO_TRANSFER_DMA_MAP else 0
  {
    assert AllOnes(0x1FFF);
    var q, a, b, c := LowBits(urb.flags);
    AndMask(q, a, b, c, 0x1FFF, 0, 1);
  }

  /** What the host hands over for a request: the bytes to send out, and one descriptor per packet. */
  predicate Fetched(urb: HostUrb, transfer: Bytes, iso: Bytes) {
    && |transfer| == (if IsOut(urb.endpoint) then urb.bufferLength else 0)
    && |iso| == urb.packetCount * ISO_PACKET_LEN
  }

  /** The room in the frame is reserved by the lengths as the header holds them. */
  function ReservedTransfer(urb: HostUrb): nat {
    if IsOut(urb.endpoint) then Align8(Cast16(urb.bufferLength)) else 0
  }

  function ReservedIso(urb: HostUrb): nat {
    Cast16(urb.packetCount) * ISO_PACKET_LEN
  }

  function RequestLen(urb: HostUrb): nat {
    HEADER_LEN + URB_HEADER_LEN + ReservedTransfer(urb) + ReservedIso(urb)
  }

  /** The transfer, sliced by its full length, lies in the reserved room, and the descriptors fill theirs. */
  predicate SlicesInRange(urb: HostUrb) {
    && (IsOut(urb.endpoint) ==> urb.bufferLength <= ReservedTransfer(urb))
    && urb.packetCount * ISO_PACKET_LEN == ReservedIso(urb)
  }

  /** That is so exactly when the casts lost nothing that is sliced. */
  lemma SlicesInRangeIff(urb: HostUrb)
    ensures SlicesInRange(urb) <==> (IsOut(urb.endpoint) ==> urb.bufferLength < 0x1_0000) && urb.packetCount < 0x1_0000
  {
    Align8IsLeast(Cast16(urb.bufferLength), 0x1_0000);
    if urb.bufferLength < 0x1_0000 {
      assert Cast16(urb.bufferLength) == urb.bufferLength;
    }
    if urb.packetCount < 0x1_0000 {
      assert Cast16(urb.packetCount) == urb.packetCount;
    }
  }

  lemma NeededIsReserved(urb: HostUrb)
    requires SlicesInRange(urb)
    ensures IsOut(urb.endpoint) ==> Align8(urb.bufferLength) == ReservedTransfer(urb)
    ensures urb.packetCount * ISO_PACKET_LEN == ReservedIso(urb)
  {
    SlicesInRangeIff(urb);
    if urb.bufferLength < 0x1_0000 {
      assert Cast16(urb.bufferLength) == urb.bufferLength;
    }
  }

  /**
   None where a slice is out of range; nothing checks that, so nothing is known about what follows.
   `filler` is whatever the reserved bytes between transfer and descriptors happen to hold.
   */
  function Request(urb: HostUrb, seqnum: u32, transfer: Bytes, filler: Bytes, iso: Bytes): (f: Option<Bytes>)
    requires Fetched(urb, transfer, iso) && |filler| == Align8(|transfer|) - |transfer|
    ensures f.Some? ==> |f.value| == RequestLen(urb)
  {
    if SlicesInRange(urb) then
      NeededIsReserved(urb);
      Some(UrbFrameBytes(CmdSubmit, seqnum, RequestHeader(urb), transfer, filler, iso))
    else None
  }

  /**
   The buffer handed to the device: bytes to send, or room to receive `len` bytes into, what is written in
   `front` of it counted; `capacity` is the room there is.
   */
  datatype DeviceBuf = Outgoing(bytes: Bytes, capacity: nat) | Incoming(front: Bytes, len: nat, capacity: nat)

  /** Interrupt and bulk transfers. */
  function NewTransfer(u: UrbHeader, data: Bytes): DeviceBuf {
    if IsOut(u.endpoint) then Outgoing(Truncate(data, u.actualTransferLen), |data|)
    else Incoming([], u.actualTransferLen, Align8(u.actualTransferLen))
  }

  /** None where splitting off the transfer or reading the descriptors would panic. */
  function NewIso(u: UrbHeader, data: Bytes): Option<(DeviceBuf, Bytes)> {
    var padded := Align8(u.actualTransferLen);
    if IsOut(u.endpoint) then
      if padded > |data| || |data| - padded != u.isoPacketCount * ISO_PACKET_LEN then None
      else Some((Outgoing(Truncate(data[..padded], u.actualTransferLen), padded), data[padded..]))
    else if |data| != u.isoPacketCount * ISO_PACKET_LEN then None
    else Some((Incoming([], u.actualTransferLen, padded), data))
  }

  /** The length field of a setup packet. */
  function SetupLength(setup: SetupPacket): u16 {
    Un16(setup, 6)
  }

  const SCRATCH_BLOCK_LEN: nat := 65536

  /**
   Control transfers: setup packet and data in one buffer. None where the lender's length assertion,
   or the scratch allocator's, would panic.
   */
  function NewCtrl(u: UrbHeader, data: Bytes): Option<DeviceBuf> {
    if IsOut(u.endpoint) then
      var buf := u.ctrlPacket + data;
      if Align8(SetupLength(u.ctrlPacket) + SETUP_LEN) != |buf| then None
      else Some(Outgoing(Truncate(buf, SETUP_LEN + u.actualTransferLen), |buf|))
    else
      var reserved := SETUP_LEN + Align8(u.actualTransferLen);
      if reserved > SCRATCH_BLOCK_LEN then None
      else Some(Incoming(u.ctrlPacket, SETUP_LEN + u.actualTransferLen, reserved))
  }

  /** A request is readable exactly when it has at most 65528 bytes, and the lender reads what the borrower wrote. */
  lemma RequestParses(urb: HostUrb, seqnum: u32, transfer: Bytes, filler: Bytes, iso: Bytes)
    requires Fetched(urb, transfer, iso) && |filler| == Align8(|transfer|) - |transfer| && SlicesInRange(urb)
    ensures
      var f := Request(urb, seqnum, transfer, filler, iso).value;
      && (IsFrame(f) <==> RequestLen(urb) <= MAX_FRAME_LEN)
      && (IsFrame(f) ==> ParseFrame(f) == UrbFrame(seqnum, RequestHeader(urb), transfer + filler + iso))
  {
    SlicesInRangeIff(urb);
    UrbFrameParses(CmdSubmit, seqnum, RequestHeader(urb), transfer, filler, iso);
  }

  /**
   The frame the lender parses has the request's own endpoint, kind and setup packet, its length, count and
   interval in 16 bits, its flags without the DMA mapping flag, and is pending.
   */
  lemma RequestHeaderArrives(urb: HostUrb, seqnum: u32, transfer: Bytes, filler: Bytes, iso: Bytes)
    requires Fetched(urb, transfer, iso) && |filler| == Align8(|transfer|) - |transfer| && SlicesInRange(urb)
    ensures
      var f := Request(urb, seqnum, transfer, filler, iso).value;
      IsFrame(f) ==>
        && ParseFrame(f).UrbFrame? && ParseFrame(f).seqnum == seqnum
        && ParseFrame(f).data == transfer + filler + iso
        && var u := ParseFrame(f).header;
        && u.endpoint == urb.endpoint && u.kind == urb.kind && u.ctrlPacket == urb.setup
        && u.actualTransferLen == urb.bufferLength % 0x1_0000
        && u.isoPacketCount == urb.packetCount % 0x1_0000
        && u.interval == urb.interval % 0x1_0000
        && u.flags == urb.flags - (if urb.flags / 4 % 2 == 1 then 4 else 0)
        && u.status == Pending && u.numErrors == 0
  {
    RequestParses(urb, seqnum, transfer, filler, iso);
    DmaFlagCleared(urb);
  }

  /** The device gets the borrower's bytes, or as much room as asked for. */
  predicate AsAsked(urb: HostUrb, transfer: Bytes, buf: DeviceBuf) {
    if IsOut(urb.endpoint) then buf.Outgoing? && buf.bytes == transfer
    else buf == Incoming([], urb.bufferLength, Align8(urb.bufferLength))
  }

  predicate IsoAsAsked(urb: HostUrb, transfer: Bytes, iso: Bytes, r: Option<(DeviceBuf, Bytes)>) {
    r.Some? && AsAsked(urb, transfer, r.value.0) && r.value.1 == iso
  }

  /**
   Interrupt, bulk and isochronous requests are encoded and give the device what was asked for, with the
   same descriptors, exactly when buffer length and packet count fit 16 bits.
   */
  lemma RequestPayloadRoundTrip(urb: HostUrb, seqnum: u32, transfer: Bytes, filler: Bytes, iso: Bytes)
    requires Fetched(urb, transfer, iso) && |filler| == Align8(|transfer|) - |transfer|
    ensures
      var u, data := RequestHeader(urb), transfer + filler + iso;
      var fits := urb.bufferLength < 0x1_0000 && urb.packetCount < 0x1_0000;
      && (SlicesInRange(urb) && AsAsked(urb, transfer, NewTransfer(u, data)) <==> fits)
      && (SlicesInRange(urb) && IsoAsAsked(urb, transfer, iso, NewIso(u, data)) <==> fits)
  {
    SlicesInRangeIff(urb);
    if urb.bufferLength < 0x1_0000 && urb.packetCount < 0x1_0000 {
      assert Cast16(urb.bufferLength) == urb.bufferLength && Cast16(urb.packetCount) == urb.packetCount;
      PayloadSlices(RequestHeader(urb), transfer, filler, iso);
    }
  }

  lemma PayloadSlices(u: UrbHeader, transfer: Bytes, filler: Bytes, iso: Bytes)
    requires |filler| == Align8(|transfer|) - |transfer| && |iso| == u.isoPacketCount * ISO_PACKET_LEN
    requires |transfer| == if IsOut(u.endpoint) then u.actualTransferLen else 0
    ensures
      var data := transfer + filler + iso;
      var room := Incoming([], u.actualTransferLen, Align8(u.actualTransferLen));
      && NewIso(u, data).Some? && NewIso(u, data).value.1 == iso
      && (if IsOut(u.endpoint) then
            && NewTransfer(u, data).Outgoing? && NewTransfer(u, data).bytes == transfer
            && NewIso(u, data).value.0 == Outgoing(transfer, Align8(u.actualTransferLen))
          else
            NewTransfer(u, data) == NewIso(u, data).value.0 == room)
  {
    var data := transfer + filler + iso;
    var padded := Align8(|transfer|);
    assert data[padded..] == iso;
    assert data[..padded] == transfer + filler;
    assert data[..|transfer|] == transfer == (transfer + filler)[..|transfer|];
  }

  /** A bulk request for 65544 bytes: incoming, the device gets room for 8; outgoing, the slice is out of range. */
  lemma WideRequestFails(setup: SetupPacket)
    ensures
      var incoming := HostUrb(Bulk, 0x81, 65544, 0, 0, 0, setup);
      && Fetched(incoming, [], []) && SlicesInRange(incoming)
      && NewTransfer(RequestHeader(incoming), []) == Incoming([], 8, 8)
    ensures
      var outgoing := HostUrb(Bulk, 0x01, 65544, 0, 0, 0, setup);
      Fetched(outgoing, Zeros(65544), []) && Request(outgoing, 0, Zeros(65544), [], []).None?
  {
  }

  /** An outgoing request without packets is readable up to 65496 bytes of transfer, though its header allows 65535. */
  lemma OutgoingRequestLimit(urb: HostUrb)
    requires IsOut(urb.endpoint) && urb.packetCount == 0
    ensures SlicesInRange(urb) && RequestLen(urb) <= MAX_FRAME_LEN <==> urb.bufferLength <= 65496
  {
    SlicesInRangeIff(urb);
    if urb.bufferLength < 0x1_0000 {
      assert Cast16(urb.bufferLength) == urb.bufferLength;
    }
  }

  /**
   Control requests: an outgoing one is encoded and taken exactly when its length fits 16 bits and the
   setup packet announces it up to alignment, and then setup packet and data are sent; an incoming one
   gets the room asked for exactly when setup packet and padded transfer fit a scratch block.
   */
  lemma CtrlRequestRoundTrip(urb: HostUrb, transfer: Bytes, filler: Bytes, iso: Bytes)
    requires urb.packetCount == 0 && Fetched(urb, transfer, iso) && |filler| == Align8(|transfer|) - |transfer|
    ensures
      var r := NewCtrl(RequestHeader(urb), transfer + filler + iso);
      var len := urb.bufferLength;
      if IsOut(urb.endpoint) then
        && (SlicesInRange(urb) && r.Some? <==> len < 0x1_0000 && Align8(SetupLength(urb.setup)) == Align8(len))
        && (SlicesInRange(urb) && r.Some? ==> r.value == Outgoing(urb.setup + transfer, SETUP_LEN + Align8(len)))
      else
        && SlicesInRange(urb)
        && (r == Some(Incoming(urb.setup, SETUP_LEN + len, SETUP_LEN + Align8(len))) <==> len <= 65528)
  {
    SlicesInRangeIff(urb);
    Align8IsLeast(SetupLength(urb.setup), Align8(SetupLength(urb.setup)));
    if urb.bufferLength < 0x1_0000 {
      assert Cast16(urb.bufferLength) == urb.bufferLength;
      var buf := urb.setup + (transfer + filler + iso);
      assert buf[..SETUP_LEN + |transfer|] == urb.setup + transfer;
    }
    if urb.bufferLength <= 65528 {
      Align8IsLeast(urb.bufferLength, 65528);
    }
  }

  // ---- Replies: lender to borrower ----

  datatype ResultData = In(buf: Bytes) | Out(bytesTransferred: nat)

  function ActualTransferLen(res: ResultData): nat {
    match res
    case In(buf) => |buf|
    case Out(n) => n
  }

  function TransferBytes(res: ResultData): Bytes {
    match res
    case In(buf) => buf
    case Out(_) => []
  }

  function ReplyHeader(kind: TransferKind, endpoint: byte, interval: u16, status: TransferStatus,
                       res: ResultData, numPackets: u16, numErrors: u16): UrbHeader {
    UrbHeader(Cast16(ActualTransferLen(res)), numPackets, endpoint, kind, interval, status, 0, numErrors, Zeros(8))
  }

  /** The padding is computed from the length as 16 bits hold it. */
  function Reply(kind: TransferKind, endpoint: byte, interval: u16, status: TransferStatus, seqnum: u32,
                 res: ResultData, iso: Bytes, numPackets: u16, numErrors: u16): Bytes {
    var transfer := TransferBytes(res);
    UrbFrameBytes(RetSubmit, seqnum, ReplyHeader(kind, endpoint, interval, status, res, numPackets, numErrors),
                  transfer, Padding(Cast16(|transfer|)), iso)
  }

  /** What the borrower gives back to the host. */
  datatype GivebackData = Received(bytes: Bytes) | Sent(len: u16)

  datatype Giveback = Giveback(kind: TransferKind, status: TransferStatus, data: GivebackData, iso: Bytes)

  /** None where splitting off the transfer would panic. */
  function UrbReply(u: UrbHeader, data: Bytes): Option<Giveback> {
    if IsOut(u.endpoint) then Some(Giveback(u.kind, u.status, Sent(u.actualTransferLen), data))
    else
      var padded := Align8(u.actualTransferLen);
      if padded > |data| then None
      else Some(Giveback(u.kind, u.status, Received(Truncate(data[..padded], u.actualTransferLen)), data[padded..]))
  }

  /** The result carries bytes exactly when the transfer came from the device. */
  predicate Directed(res: ResultData, endpoint: byte) {
    res.In? <==> !IsOut(endpoint)
  }

  /**
   A reply is readable exactly when it has at most 65528 bytes, and then the borrower gives back the
   received bytes and descriptors unchanged; for outgoing transfers only the length travels, in 16 bits.
   */
  lemma ReplyRoundTrip(kind: TransferKind, endpoint: byte, interval: u16, status: TransferStatus, seqnum: u32,
                       res: ResultData, iso: Bytes, numPackets: u16, numErrors: u16)
    requires Directed(res, endpoint) && |iso| % 8 == 0
    ensures
      var f := Reply(kind, endpoint, interval, status, seqnum, res, iso, numPackets, numErrors);
      && |f| == HEADER_LEN + URB_HEADER_LEN + Align8(|TransferBytes(res)|) + |iso|
      && (IsFrame(f) <==> |f| <= MAX_FRAME_LEN)
      && (IsFrame(f) ==>
            && ParseFrame(f).UrbFrame? && ParseFrame(f).seqnum == seqnum && ParseFrame(f).header.kind == kind
            && var back := UrbReply(ParseFrame(f).header, ParseFrame(f).data);
            && back.Some? && back.value.kind == kind && back.value.status == status && back.value.iso == iso
            && back.value.data == match res
                 case In(bytes) => Received(bytes)
                 case Out(sent) => Sent(sent % 0x1_0000))
  {
    ReplyParses(kind, endpoint, interval, status, seqnum, res, iso, numPackets, numErrors);
    if |TransferBytes(res)| < 0x1_0000 {
      ReplyPayload(kind, endpoint, interval, status, res, iso, numPackets, numErrors);
    }
  }

  lemma ReplyPayload(kind: TransferKind, endpoint: byte, interval: u16, status: TransferStatus,
                     res: ResultData, iso: Bytes, numPackets: u16, numErrors: u16)
    requires Directed(res, endpoint) && |TransferBytes(res)| < 0x1_0000
    ensures
      var u := ReplyHeader(kind, endpoint, interval, status, res, numPackets, numErrors);
      var transfer := TransferBytes(res);
      UrbReply(u, transfer + Padding(Cast16(|transfer|)) + iso) == Some(GivenBack(kind, status, res, iso))
  {
    var transfer := TransferBytes(res);
    assert Cast16(|transfer|) == |transfer|;
    ReplySlices(ReplyHeader(kind, endpoint, interval, status, res, numPackets, numErrors),
                transfer, Padding(|transfer|), iso);
  }

  /** What the host should get back for a result. */
  function GivenBack(kind: TransferKind, status: TransferStatus, res: ResultData, iso: Bytes): Giveback {
    Giveback(kind, status, if res.In? then Received(res.buf) else Sent(Cast16(res.bytesTransferred)), iso)
  }

  /** The reply the borrower parses has the result's endpoint, kind, interval and counts, and its length in 16 bits. */
  lemma ReplyHeaderArrives(kind: TransferKind, endpoint: byte, interval: u16, status: TransferStatus, seqnum: u32,
                           res: ResultData, iso: Bytes, numPackets: u16, numErrors: u16)
    requires |iso| % 8 == 0
    ensures
      var f := Reply(kind, endpoint, interval, status, seqnum, res, iso, numPackets, numErrors);
      IsFrame(f) ==>
        && ParseFrame(f).UrbFrame? && ParseFrame(f).seqnum == seqnum
        && var u := ParseFrame(f).header;
        && u.endpoint == endpoint && u.kind == kind && u.interval == interval && u.status == status
        && u.isoPacketCount == numPackets && u.numErrors == numErrors
        && u.actualTransferLen == (match res case In(bytes) => |bytes| case Out(sent) => sent) % 0x1_0000
        && u.flags == 0 && u.ctrlPacket == [0, 0, 0, 0, 0, 0, 0, 0]
  {
    ReplyParses(kind, endpoint, interval, status, seqnum, res, iso, numPackets, numErrors);
  }

  lemma CastKeepsPadding(n: nat)
    ensures Align8(Cast16(n)) - Cast16(n) == Align8(n) - n
  {
    AlignPeriod(Cast16(n), 8192 * (n / 0x1_0000));
  }

  lemma AlignPeriod(c: nat, m: nat)
    ensures Align8(c + 8 * m) == Align8(c) + 8 * m
  {
    assert (c + 8 * m + 7) / 8 == (c + 7) / 8 + m;
  }

  lemma ReplyParses(kind: TransferKind, endpoint: byte, interval: u16, status: TransferStatus, seqnum: u32,
                    res: ResultData, iso: Bytes, numPackets: u16, numErrors: u16)
    requires |iso| % 8 == 0
    ensures
      var f := Reply(kind, endpoint, interval, status, seqnum, res, iso, numPackets, numErrors);
      var u := ReplyHeader(kind, endpoint, interval, status, res, numPackets, numErrors);
      var transfer := TransferBytes(res);
      && |f| == HEADER_LEN + URB_HEADER_LEN + Align8(|transfer|) + |iso|
      && (IsFrame(f) <==> |f| <= MAX_FRAME_LEN)
      && (IsFrame(f) ==> ParseFrame(f) == UrbFrame(seqnum, u, transfer + Padding(Cast16(|transfer|)) + iso))
  {
    CastKeepsPadding(|TransferBytes(res)|);
    PaddedFrameParses(seqnum, ReplyHeader(kind, endpoint, interval, status, res, numPackets, numErrors),
                      TransferBytes(res), Padding(Cast16(|TransferBytes(res)|)), iso);
  }

  lemma PaddedFrameParses(seqnum: u32, u: UrbHeader, transfer: Bytes, pad: Bytes, iso: Bytes)
    requires |pad| == Align8(|transfer|) - |transfer| && |iso| % 8 == 0
    ensures
      var f := UrbFrameBytes(RetSubmit, seqnum, u, transfer, pad, iso);
      && |f| == HEADER_LEN + URB_HEADER_LEN + Align8(|transfer|) + |iso|
      && (IsFrame(f) <==> |f| <= MAX_FRAME_LEN)
      && (IsFrame(f) ==> ParseFrame(f) == UrbFrame(seqnum, u, transfer + pad + iso))
  {
    assert (Align8(|transfer|) + |iso|) % 8 == 0;
    UrbFrameParses(RetSubmit, seqnum, u, transfer, pad, iso);
  }

  lemma ReplySlices(u: UrbHeader, transfer: Bytes, pad: Bytes, iso: Bytes)
    requires |transfer| < 0x1_0000 && |pad| == Align8(|transfer|) - |transfer|
    requires IsOut(u.endpoint) ==> transfer == []
    requires !IsOut(u.endpoint) ==> u.actualTransferLen == |transfer|
    ensures
      UrbReply(u, transfer + pad + iso) ==
      Some(Giveback(u.kind, u.status, if IsOut(u.endpoint) then Sent(u.actualTransferLen) else Received(transfer), iso))
  {
    var data := transfer + pad + iso;
    if IsOut(u.endpoint) {
      assert data == iso;
    } else {
      var padded := Align8(|transfer|);
      assert data[..padded][..|transfer|] == transfer;
      assert data[padded..] == iso;
    }
  }

  /** Splitting off the transfer of a reply panics exactly when it comes from the device and is not all there. */
  lemma UrbReplyPanicsIff(u: UrbHeader, data: Bytes)
    ensures UrbReply(u, data).None? <==> u.endpoint >= 0x80 && |data| < (u.actualTransferLen + 7) / 8 * 8
  {
  }

  /** A completed isochronous transfer hands back its buffer at full capacity, not at the requested length. */
  function IsoResult(buf: DeviceBuf, received: Bytes): ResultData
    requires buf.Incoming? ==> |received| == buf.capacity
  {
    match buf
    case Outgoing(_, capacity) => Out(capacity)
    case Incoming(_, _, _) => In(received)
  }

  /** So its reply reports the requested length exactly when that was a multiple of 8 and fits 16 bits. */
  lemma IsoReplyReportsPaddedLength(urb: HostUrb, data: Bytes, received: Bytes)
    requires NewIso(RequestHeader(urb), data).Some?
    requires
      var buf := NewIso(RequestHeader(urb), data).value.0;
      buf.Incoming? ==> |received| == buf.capacity
    ensures
      var u := RequestHeader(urb);
      var res := IsoResult(NewIso(u, data).value.0, received);
      var header := ReplyHeader(u.kind, u.endpoint, u.interval, Completed, res, u.isoPacketCount, 0);
      && ActualTransferLen(res) == Align8(u.actualTransferLen)
      && (header.actualTransferLen == urb.bufferLength <==> urb.bufferLength % 8 == 0 && urb.bufferLength < 0x1_0000)
  {
    var n := Cast16(urb.bufferLength);
    Align8IsLeast(n, 0x1_0000);
    Align8IsLeast(n, Align8(n));
    if urb.bufferLength < 0x1_0000 {
      assert n == urb.bufferLength;
    }
  }
}
