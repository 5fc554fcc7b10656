/** Bytes, alignment and headers: how numbers and headers are laid out on the wire (little endian). */
module Wire {
  import opened Wrappers

  type byte = b: int | 0 <= b < 0x100
  type u16 = v: int | 0 <= v < 0x1_0000
  type u32 = v: int | 0 <= v < 0x1_0000_0000
  type Bytes = seq<byte>

  // ---- Alignment ----

  const WORD: nat := 0x1_0000_0000_0000_0000

  /** The bitwise and of two machine words. */
  function And(x: nat, y: nat): nat {
    if x == 0 || y == 0 then 0 else (if x % 2 == 1 && y % 2 == 1 then 1 else 0) + 2 * And(x / 2, y / 2)
  }

  function Bit(b: nat, d: nat): nat {
    if b == 1 && d == 1 then 1 else 0
  }

  lemma {:induction false} AndBit(a: nat, b: nat, c: nat, d: nat)
    requires b < 2 && d < 2
    ensures And(2 * a + b, 2 * c + d) == 2 * And(a, c) + Bit(b, d)
  {
    assert (2 * a + b) / 2 == a && (2 * c + d) / 2 == c;
  }

  lemma {:induction false} AndBound(x: nat, y: nat)
    ensures And(x, y) <= x
  {
    if x > 0 && y > 0 {
      AndBound(x / 2, y / 2);
    }
  }

  /** Binary ones only. */
  predicate AllOnes(m: nat) {
    m == 0 || (m % 2 == 1 && AllOnes(m / 2))
  }

  lemma {:induction false} AndOnes(x: nat, m: nat)
    requires AllOnes(m) && x <= m
    ensures And(x, m) == x
  {
    if x > 0 {
      AndOnes(x / 2, m / 2);
    }
  }

  lemma {:induction false} AndThreeBits(q: nat, a: nat, b: nat, c: nat, m: nat, d: nat, e: nat)
    requires a < 2 && b < 2 && c < 2 && d < 2 && e < 2
    ensures
      And(2 * (2 * (2 * q + a) + b) + c, 2 * (2 * (2 * m + d) + e) + e)
      == 2 * (2 * (2 * And(q, m) + Bit(a, d)) + Bit(b, e)) + Bit(c, e)
  {
    AndBit(q, a, m, d);
    AndBit(2 * q + a, b, 2 * m + d, e);
    AndBit(2 * (2 * q + a) + b, c, 2 * (2 * m + d) + e, e);
  }

  /** A mask of `ones`, then a bit `d`, then two bits `e`. */
  lemma {:induction false} AndMask(q: nat, a: nat, b: nat, c: nat, ones: nat, d: nat, e: nat)
    requires AllOnes(ones) && q <= ones && a < 2 && b < 2 && c < 2 && d < 2 && e < 2
    ensures
      And(8 * q + 4 * a + 2 * b + c, 8 * ones + 4 * d + 2 * e + e)
      == 8 * q + (if d == 1 then 4 * a else 0) + if e == 1 then 2 * b + c else 0
  {
    AndOnes(q, ones);
    AndThreeBits(q, a, b, c, ones, d, e);
    Nested(q, a, b, c);
    Nested(ones, d, e, e);
  }

  lemma Nested(q: nat, a: nat, b: nat, c: nat)
    ensures 2 * (2 * (2 * q + a) + b) + c == 8 * q + 4 * a + 2 * b + c
  {
  }

  /** The three lowest bits apart from the rest. */
  lemma LowBits(x: nat) returns (q: nat, a: nat, b: nat, c: nat)
    ensures x == 8 * q + 4 * a + 2 * b + c && a < 2 && b < 2 && c < 2
    ensures q == x / 8 && a == x / 4 % 2
  {
    q := x / 8;
    var r := x - 8 * q;
    a := if r >= 4 then 1 else 0;
    b := if r - 4 * a >= 2 then 1 else 0;
    c := r - 4 * a - 2 * b;
    assert x / 4 == 2 * q + a;
  }

  /** Rounding up with a bit mask; the complement of a 64-bit word `w` is `WORD - 1 - w`. */
  function AlignMask(val: nat, alignment: nat): nat
    requires 0 < alignment < WORD && val + (alignment - 1) < WORD
  {
    And(val + (alignment - 1), WORD - 1 - (alignment - 1))
  }

  function Align8(n: nat): (r: nat)
    ensures r % 8 == 0 && n <= r < n + 8
  {
    (n + 7) / 8 * 8
  }

  lemma {:induction false} OneMore(m: nat)
    requires AllOnes(m)
    ensures AllOnes(2 * m + 1)
  {
    assert (2 * m + 1) / 2 == m;
  }

  lemma {:induction false} FourMore(m: nat)
    requires AllOnes(m)
    ensures AllOnes(0x10 * m + 0xF)
  {
    OneMore(m);
    OneMore(2 * m + 1);
    OneMore(4 * m + 3);
    OneMore(8 * m + 7);
  }

  lemma {:induction false} SixteenMore(m: nat)
    requires AllOnes(m)
    ensures AllOnes(0x1_0000 * m + 0xFFFF)
  {
    FourMore(m);
    FourMore(0x10 * m + 0xF);
    FourMore(0x100 * m + 0xFF);
    FourMore(0x1000 * m + 0xFFF);
  }

  lemma WordOfOnes()
    ensures AllOnes(WORD / 8 - 1)
  {
    SixteenMore(0x1FFF);
    SixteenMore(0x1FFF_FFFF);
    SixteenMore(0x1FFF_FFFF_FFFF);
  }

  /** For 8-byte alignment the mask rounds up to a multiple of 8, as long as that fits a word. */
  lemma {:induction false} MaskIsAlign8(val: nat)
    requires val + 7 < WORD
    ensures AlignMask(val, 8) == Align8(val)
  {
    WordOfOnes();
    var q, a, b, c := LowBits(val + 7);
    AndMask(q, a, b, c, WORD / 8 - 1, 0, 0);
  }

  /** The least multiple of 8 not below `n`; and eight more bytes align to eight more. */
  lemma Align8IsLeast(n: nat, m: nat)
    requires m % 8 == 0 && n <= m
    ensures Align8(n) <= m
    ensures Align8(n + 8) == Align8(n) + 8
    ensures Align8(n) == n <==> n % 8 == 0
  {
  }

  function Zeros(n: nat): (z: Bytes)
    ensures |z| == n
  {
    seq(n, _ => 0)
  }

  /** The zero bytes that follow a transfer, cut from a static array of seven. */
  function Padding(actualTransferLen: nat): (p: Bytes)
    ensures |p| <= 7 && |p| == Align8(actualTransferLen) - actualTransferLen
  {
    Zeros(7)[..Align8(actualTransferLen) - actualTransferLen]
  }

  // ---- Numbers ----

  function Le16(v: u16): (b: Bytes)
    ensures |b| == 2 && Un16(b, 0) == v
  {
    [v % 0x100, v / 0x100]
  }

  function Un16(b: Bytes, at: nat): u16
    requires at + 2 <= |b|
  {
    b[at] as int + 0x100 * b[at + 1] as int
  }

  function Le32(v: u32): (b: Bytes)
    ensures |b| == 4 && Un32(b, 0) == v
  {
    Le16(v % 0x1_0000) + Le16(v / 0x1_0000)
  }

  function Un32(b: Bytes, at: nat): u32
    requires at + 4 <= |b|
  {
    Un16(b, at) as int + 0x1_0000 * Un16(b, at + 2) as int
  }

  // ---- Frame header ----

  datatype Command = CmdSubmit | CmdUnlink | CmdPort | RetSubmit | RetPort

  datatype Status =
    | Success
    | Failed
    | DevBusy
    | DevErr
    | NoDev
    | Unexpected
    | VersionMismatch
    | Timeout
    | Proto

  function CommandCode(c: Command): byte {
    match c
    case CmdSubmit => 0
    case CmdUnlink => 1
    case CmdPort => 2
    case RetSubmit => 3
    case RetPort => 4
  }

  function CommandOf(b: byte): (c: Option<Command>)
    ensures c.Some? ==> CommandCode(c.value) == b
    ensures c.None? ==> b > 4
  {
    match b
    case 0 => Some(CmdSubmit)
    case 1 => Some(CmdUnlink)
    case 2 => Some(CmdPort)
    case 3 => Some(RetSubmit)
    case 4 => Some(RetPort)
    case _ => None
  }

  function StatusCode(s: Status): byte {
    match s
    case Success => 0
    case Failed => 1
    case DevBusy => 2
    case DevErr => 3
    case NoDev => 4
    case Unexpected => 5
    case VersionMismatch => 6
    case Timeout => 7
    case Proto => 8
  }

  function StatusOf(b: byte): (s: Option<Status>)
    ensures s.Some? ==> StatusCode(s.value) == b
    ensures s.None? ==> b > 8
  {
    match b
    case 0 => Some(Success)
    case 1 => Some(Failed)
    case 2 => Some(DevBusy)
    case 3 => Some(DevErr)
    case 4 => Some(NoDev)
    case 5 => Some(Unexpected)
    case 6 => Some(VersionMismatch)
    case 7 => Some(Timeout)
    case 8 => Some(Proto)
    case _ => None
  }

  const HEADER_LEN: nat := 8

  /** `totalFrameLen` counts 8-byte words. */
  datatype Header = Header(totalFrameLen: u16, command: Command, status: Status, seqnum: u32)

  function EncodeHeader(h: Header): (b: Bytes)
    ensures |b| == HEADER_LEN
  {
    Le16(h.totalFrameLen) + [CommandCode(h.command), StatusCode(h.status)] + Le32(h.seqnum)
  }

  /** None when the command or the status byte is not one of theirs. */
  function DecodeHeader(b: Bytes): Option<Header>
    requires |b| >= HEADER_LEN
  {
    var command, status := CommandOf(b[2]), StatusOf(b[3]);
    if command.None? || status.None? then None
    else Some(Header(Un16(b, 0), command.value, status.value, Un32(b, 4)))
  }

  lemma HeaderRoundTrip(h: Header, rest: Bytes)
    ensures DecodeHeader(EncodeHeader(h) + rest) == Some(h)
  {
  }

  /** Where the fields of a header lie, low bytes first. */
  lemma HeaderLayout(h: Header)
    ensures
      var b := EncodeHeader(h);
      && |b| == 8 && b[0] as int + 0x100 * b[1] as int == h.totalFrameLen
      && b[2] == (match h.command
                  case CmdSubmit => 0 case CmdUnlink => 1 case CmdPort => 2 case RetSubmit => 3 case RetPort => 4)
      && b[3] == (match h.status
                  case Success => 0 case Failed => 1 case DevBusy => 2 case DevErr => 3 case NoDev => 4
                  case Unexpected => 5 case VersionMismatch => 6 case Timeout => 7 case Proto => 8)
      && b[4] as int + 0x100 * b[5] as int + 0x1_0000 * b[6] as int + 0x100_0000 * b[7] as int == h.seqnum
  {
  }

  /** A decoded header encodes to the bytes it was decoded from. */
  lemma HeaderIsCanonical(b: Bytes)
    requires |b| >= HEADER_LEN && DecodeHeader(b).Some?
    ensures EncodeHeader(DecodeHeader(b).value) == b[..HEADER_LEN]
  {
    var h := DecodeHeader(b).value;
    Le16IsCanonical(b, 0);
    Le32IsCanonical(b, 4);
    assert [CommandCode(h.command), StatusCode(h.status)] == b[2..4];
    assert b[..HEADER_LEN] == b[0..2] + b[2..4] + b[4..8];
  }

  lemma Le16IsCanonical(b: Bytes, at: nat)
    requires at + 2 <= |b|
    ensures Le16(Un16(b, at)) == b[at..at + 2]
  {
  }

  lemma Le32IsCanonical(b: Bytes, at: nat)
    requires at + 4 <= |b|
    ensures Le32(Un32(b, at)) == b[at..at + 4]
  {
  }

  // ---- URB header ----

  datatype TransferKind = Isochronous | Interrupt | Control | Bulk

  datatype TransferStatus = Completed | Pending | TimedOut | Cancelled | Stall | Overflow | NotEnoughBandwidth

  function KindCode(k: TransferKind): byte {
    match k
    case Isochronous => 0
    case Interrupt => 1
    case Control => 2
    case Bulk => 3
  }

  function KindOf(b: byte): (k: Option<TransferKind>)
    ensures k.Some? ==> KindCode(k.value) == b
    ensures k.None? ==> b > 3
  {
    match b
    case 0 => Some(Isochronous)
    case 1 => Some(Interrupt)
    case 2 => Some(Control)
    case 3 => Some(Bulk)
    case _ => None
  }

  function TransferStatusCode(s: TransferStatus): byte {
    match s
    case Completed => 0
    case Pending => 1
    case TimedOut => 2
    case Cancelled => 3
    case Stall => 4
    case Overflow => 5
    case NotEnoughBandwidth => 6
  }

  function TransferStatusOf(b: byte): (s: Option<TransferStatus>)
    ensures s.Some? ==> TransferStatusCode(s.value) == b
    ensures s.None? ==> b > 6
  {
    match b
    case 0 => Some(Completed)
    case 1 => Some(Pending)
    case 2 => Some(TimedOut)
    case 3 => Some(Cancelled)
    case 4 => Some(Stall)
    case 5 => Some(Overflow)
    case 6 => Some(NotEnoughBandwidth)
    case _ => None
  }

  const URB_HEADER_LEN: nat := 24
  const SETUP_LEN: nat := 8
  const ISO_PACKET_LEN: nat := 8

  /** The eight bytes of a control setup packet. */
  type SetupPacket = b: Bytes | |b| == 8 witness Zeros(8)

  datatype UrbHeader = UrbHeader(
    actualTransferLen: u16,
    isoPacketCount: u16,
    endpoint: byte,
    kind: TransferKind,
    interval: u16,
    status: TransferStatus,
    flags: u16,
    numErrors: u16,
    ctrlPacket: SetupPacket)

  /** The top bit of the endpoint is set for transfers from the device. */
  predicate IsOut(endpoint: byte) {
    endpoint < 0x80
  }

  function EncodeUrbHeader(u: UrbHeader): (b: Bytes)
    ensures |b| == URB_HEADER_LEN
  {
    Le16(u.actualTransferLen) + Le16(u.isoPacketCount) + [u.endpoint, KindCode(u.kind)] + Le16(u.interval)
    + [TransferStatusCode(u.status), 0, 0, 0] + Le16(u.flags) + Le16(u.numErrors) + u.ctrlPacket
  }

  function DecodeUrbHeader(b: Bytes): Option<UrbHeader>
    requires |b| >= URB_HEADER_LEN
  {
    var kind, status := KindOf(b[5]), TransferStatusOf(b[8]);
    if kind.None? || status.None? then None
    else Some(UrbHeader(Un16(b, 0), Un16(b, 2), b[4], kind.value, Un16(b, 6), status.value,
                        Un16(b, 12), Un16(b, 14), b[16..24]))
  }

  /** Where the fields of a URB header lie. */
  lemma UrbHeaderLayout(u: UrbHeader)
    ensures
      var b := EncodeUrbHeader(u);
      && |b| == 24 && Un16(b, 0) == u.actualTransferLen && Un16(b, 2) == u.isoPacketCount && b[4] == u.endpoint
      && b[5] == (match u.kind case Isochronous => 0 case Interrupt => 1 case Control => 2 case Bulk => 3)
      && Un16(b, 6) == u.interval
      && b[8] == (match u.status
                  case Completed => 0 case Pending => 1 case TimedOut => 2 case Cancelled => 3 case Stall => 4
                  case Overflow => 5 case NotEnoughBandwidth => 6)
      && b[9..12] == [0, 0, 0] && Un16(b, 12) == u.flags && Un16(b, 14) == u.numErrors && b[16..] == u.ctrlPacket
  {
  }

  lemma UrbHeaderRoundTrip(u: UrbHeader, rest: Bytes)
    ensures DecodeUrbHeader(EncodeUrbHeader(u) + rest) == Some(u)
  {
  }
}
