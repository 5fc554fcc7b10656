/**
 The list of devices a lender offers: fixed headers, each followed by an array of interfaces that is
 padded to an even number, read back by an iterator over the received bytes.
 */
module DeviceList {
  import opened Wrappers
  import opened Wire
  import opened FrameReader

  const DEVICE_HEADER_LEN: nat := 312
  const INTERFACE_LEN: nat := 4
  const SPEED_AT: nat := 299
  const NUM_INTERFACES_AT: nat := 305
  const PADDED_NUM_INTERFACES_AT: nat := 306
  const MAX_SPEED: nat := 5

  /** Number, class, subclass and protocol. */
  type Interface = b: Bytes | |b| == INTERFACE_LEN witness Zeros(4)

  /** What of a header is opaque here: paths and ids before the speed; class, configuration and counts after it. */
  datatype Device = Device(front: Bytes, speed: byte, middle: Bytes, interfaces: seq<Interface>)

  predicate WellFormed(d: Device) {
    |d.front| == SPEED_AT && d.speed <= MAX_SPEED && |d.middle| == NUM_INTERFACES_AT - SPEED_AT - 1
  }

  function PaddedInterfaces(d: Device): (p: seq<Interface>)
    ensures |p| % 2 == 0 && d.interfaces <= p && |p| <= |d.interfaces| + 1
  {
    if |d.interfaces| % 2 == 1 then d.interfaces + [Zeros(INTERFACE_LEN)] else d.interfaces
  }

  /** Both counts are single bytes; the sender panics when one does not fit. */
  function Encode(d: Device): Option<Bytes>
    requires WellFormed(d)
  {
    var padded := PaddedInterfaces(d);
    if |d.interfaces| > 0xFF || |padded| > 0xFF then None
    else Some(d.front + [d.speed] + d.middle + [|d.interfaces|, |padded|] + Zeros(5) + Concat(padded))
  }

  /** The bytes the next item takes; None when they are not all there. */
  function ItemLen(buf: Bytes): Option<nat> {
    if |buf| < DEVICE_HEADER_LEN then None
    else
      var len := buf[PADDED_NUM_INTERFACES_AT] * INTERFACE_LEN + DEVICE_HEADER_LEN;
      if len > |buf| then None else Some(len)
  }

  predicate IsItem(b: Bytes) {
    ItemLen(b) == Some(|b|) && b[SPEED_AT] <= MAX_SPEED
  }

  /** The next item and what follows it; None also when its speed is not one of the six. */
  function NextItem(buf: Bytes): Option<(Bytes, Bytes)> {
    match ItemLen(buf)
    case None => None
    case Some(len) => if buf[SPEED_AT] > MAX_SPEED then None else Some((buf[..len], buf[len..]))
  }

  /** Items until there is none, and the bytes left over. */
  function Items(buf: Bytes): (seq<Bytes>, Bytes)
    decreases |buf|
  {
    match NextItem(buf)
    case None => ([], buf)
    case Some((item, rest)) =>
      var (more, left) := Items(rest);
      ([item] + more, left)
  }

  /** The interfaces of an item, the padding left out. */
  function InterfacesOf(item: Bytes): seq<Bytes>
    requires IsItem(item)
  {
    var n := if item[NUM_INTERFACES_AT] <= item[PADDED_NUM_INTERFACES_AT]
             then item[NUM_INTERFACES_AT] else item[PADDED_NUM_INTERFACES_AT];
    seq(n, i requires 0 <= i < n =>
      item[DEVICE_HEADER_LEN + i * INTERFACE_LEN..DEVICE_HEADER_LEN + (i + 1) * INTERFACE_LEN])
  }

  lemma {:induction false} ConcatInterfaces(p: seq<Interface>, i: nat)
    requires i < |p|
    ensures |Concat(p)| == |p| * INTERFACE_LEN
    ensures Concat(p)[i * INTERFACE_LEN..(i + 1) * INTERFACE_LEN] == p[i]
    decreases |p|
  {
    if |p| == 1 {
      assert Concat(p) == p[0] + Concat(p[1..]) == p[0];
    } else {
      ConcatInterfaces(p[1..], if i == 0 then 0 else i - 1);
      var first: Bytes, c: Bytes := p[0], Concat(p[1..]);
      assert Concat(p) == first + c;
      if i > 0 {
        assert (first + c)[i * INTERFACE_LEN..(i + 1) * INTERFACE_LEN] == c[(i - 1) * INTERFACE_LEN..i * INTERFACE_LEN];
      }
    }
  }

  /** A device can be sent exactly when it has at most 254 interfaces, one less than its count could hold. */
  lemma SendableLimit(d: Device)
    requires WellFormed(d)
    ensures Encode(d).Some? <==> |d.interfaces| <= 254
  {
  }

  lemma EncodeIsItem(d: Device)
    requires WellFormed(d) && Encode(d).Some?
    ensures IsItem(Encode(d).value)
    ensures Encode(d).value[..DEVICE_HEADER_LEN] ==
            d.front + [d.speed] + d.middle + [|d.interfaces|, |PaddedInterfaces(d)|] + Zeros(5)
    ensures Encode(d).value[DEVICE_HEADER_LEN..] == Concat(PaddedInterfaces(d))
  {
    var padded := PaddedInterfaces(d);
    if padded != [] {
      ConcatInterfaces(padded, 0);
    }
    var header := d.front + [d.speed] + d.middle + [|d.interfaces|, |padded|] + Zeros(5);
    var e := Encode(d).value;
    assert e[..DEVICE_HEADER_LEN] == header && e[DEVICE_HEADER_LEN..] == Concat(padded);
    assert e[SPEED_AT] == header[SPEED_AT] == d.speed;
    assert e[PADDED_NUM_INTERFACES_AT] == header[PADDED_NUM_INTERFACES_AT] == |padded|;
  }

  /** Where speed and counts lie, and how long a device is. */
  lemma DeviceLayout(d: Device)
    requires WellFormed(d) && Encode(d).Some?
    ensures
      var e, n := Encode(d).value, |d.interfaces|;
      var padded := if n % 2 == 1 then n + 1 else n;
      && |e| == 312 + 4 * padded
      && e[299] == d.speed && e[305] == n && e[306] == padded && e[307..312] == [0, 0, 0, 0, 0]
      && (n % 2 == 1 ==> e[|e| - 4..] == [0, 0, 0, 0])
  {
    EncodeIsItem(d);
    var e := Encode(d).value;
    var header := e[..DEVICE_HEADER_LEN];
    assert e[299] == header[299] && e[305] == header[305] && e[306] == header[306];
    assert e[307..312] == header[307..312];
    var padded := PaddedInterfaces(d);
    if padded != [] {
      ConcatInterfaces(padded, |padded| - 1);
      assert e[|e| - 4..] == e[DEVICE_HEADER_LEN..][(|padded| - 1) * INTERFACE_LEN..|padded| * INTERFACE_LEN];
    }
  }

  /** The receiver reads back the device: header bytes, speed and every interface. */
  lemma DeviceRoundTrip(d: Device, i: nat)
    requires WellFormed(d) && Encode(d).Some?
    ensures IsItem(Encode(d).value)
    ensures
      var item := Encode(d).value;
      && item[..SPEED_AT] == d.front && item[SPEED_AT] == d.speed && item[SPEED_AT + 1..NUM_INTERFACES_AT] == d.middle
      && |InterfacesOf(item)| == |d.interfaces|
      && (i < |d.interfaces| ==> InterfacesOf(item)[i] == d.interfaces[i])
  {
    EncodeIsItem(d);
    var padded := PaddedInterfaces(d);
    var item := Encode(d).value;
    var header := item[..DEVICE_HEADER_LEN];
    assert item[NUM_INTERFACES_AT] == header[NUM_INTERFACES_AT] == |d.interfaces|;
    assert item[PADDED_NUM_INTERFACES_AT] == header[PADDED_NUM_INTERFACES_AT] == |padded|;
    assert item[..SPEED_AT] == header[..SPEED_AT];
    assert item[SPEED_AT + 1..NUM_INTERFACES_AT] == header[SPEED_AT + 1..NUM_INTERFACES_AT];
    if i < |d.interfaces| {
      ConcatInterfaces(padded, i);
      assert InterfacesOf(item)[i] == item[DEVICE_HEADER_LEN..][i * INTERFACE_LEN..(i + 1) * INTERFACE_LEN];
    }
  }

  lemma NextItemIsFirst(item: Bytes, rest: Bytes)
    requires IsItem(item)
    ensures NextItem(item + rest) == Some((item, rest))
  {
  }

  /** Any list of items is read back from its concatenation, in order; bytes that start no item are left. */
  lemma {:induction false} ListRoundTrip(items: seq<Bytes>, tail: Bytes)
    requires forall i :: 0 <= i < |items| ==> IsItem(items[i])
    requires NextItem(tail).None?
    ensures Items(Concat(items) + tail) == (items, tail)
  {
    if items == [] {
      assert Concat(items) + tail == tail;
    } else {
      ListRoundTrip(items[1..], tail);
      Assoc(items[0], Concat(items[1..]), tail);
      ItemsFirst(items[0], Concat(items[1..]) + tail);
      assert items == [items[0]] + items[1..];
    }
  }

  lemma ItemsFirst(item: Bytes, rest: Bytes)
    requires IsItem(item)
    ensures Items(item + rest) == ([item] + Items(rest).0, Items(rest).1)
  {
    NextItemIsFirst(item, rest);
  }

  /** The bytes of devices that can all be sent, one after the other. */
  function Encodings(ds: seq<Device>): (items: seq<Bytes>)
    requires forall i :: 0 <= i < |ds| ==> WellFormed(ds[i]) && Encode(ds[i]).Some?
    ensures |items| == |ds|
  {
    seq(|ds|, i requires 0 <= i < |ds| => Encode(ds[i]).value)
  }

  /** Iterating over the bytes of any list of devices yields exactly these devices, in order, interfaces and all. */
  lemma DevicesRoundTrip(ds: seq<Device>)
    requires forall i :: 0 <= i < |ds| ==> WellFormed(ds[i]) && Encode(ds[i]).Some?
    ensures
      var (items, left) := Items(Concat(Encodings(ds)));
      && left == [] && |items| == |ds|
      && (forall i :: 0 <= i < |ds| ==>
            && IsItem(items[i])
            && items[i][..SPEED_AT] == ds[i].front && items[i][SPEED_AT] == ds[i].speed
            && items[i][SPEED_AT + 1..NUM_INTERFACES_AT] == ds[i].middle
            && InterfacesOf(items[i]) == ds[i].interfaces)
  {
    var items := Encodings(ds);
    forall i | 0 <= i < |ds|
      ensures IsItem(items[i])
    {
      DeviceRoundTrip(ds[i], 0);
    }
    ListRoundTrip(items, []);
    assert Concat(items) + [] == Concat(items);
    forall i | 0 <= i < |ds|
      ensures InterfacesOf(items[i]) == ds[i].interfaces
      ensures items[i][..SPEED_AT] == ds[i].front && items[i][SPEED_AT] == ds[i].speed
      ensures items[i][SPEED_AT + 1..NUM_INTERFACES_AT] == ds[i].middle
    {
      DeviceRoundTrip(ds[i], 0);
      InterfacesBack(ds[i]);
    }
  }

  lemma InterfacesBack(d: Device)
    requires WellFormed(d) && Encode(d).Some?
    ensures IsItem(Encode(d).value) && InterfacesOf(Encode(d).value) == d.interfaces
  {
    DeviceRoundTrip(d, 0);
    forall i | 0 <= i < |d.interfaces|
      ensures InterfacesOf(Encode(d).value)[i] == d.interfaces[i]
    {
      DeviceRoundTrip(d, i);
    }
  }

  /** Conversely, what is read are items, and nothing is skipped. */
  lemma {:induction false} ReadItemsAreItems(buf: Bytes)
    ensures forall i :: 0 <= i < |Items(buf).0| ==> IsItem(Items(buf).0[i])
    ensures Concat(Items(buf).0) + Items(buf).1 == buf
    decreases |buf|
  {
    match NextItem(buf)
    case None =>
    case Some((item, rest)) =>
      ReadItemsAreItems(rest);
      var (more, left) := Items(rest);
      assert ([item] + more)[1..] == more;
      Assoc(item, Concat(more), left);
  }

  /** The iterator over received bytes: each step takes one item off the front. */
  class IterDst {
    var buf: Bytes

    constructor (buf: Bytes)
      ensures this.buf == buf
    {
      this.buf := buf;
    }

    method Next() returns (r: Option<Bytes>)
      modifies this
      ensures r.None? <==> NextItem(old(buf)).None?
      ensures r.None? ==> buf == old(buf)
      ensures r.Some? ==> NextItem(old(buf)) == Some((r.value, buf)) && |buf| + DEVICE_HEADER_LEN <= |old(buf)|
    {
      match ItemLen(buf)
      case None => r := None;
      case Some(len) =>
        if buf[SPEED_AT] > MAX_SPEED {
          r := None;
        } else {
          r := Some(buf[..len]);
          buf := buf[len..];
        }
    }

    /** Iterating to the end. */
    method Collect() returns (items: seq<Bytes>)
      modifies this
      ensures (items, buf) == Items(old(buf))
    {
      items := [];
      assert [] + Items(buf).0 == Items(buf).0;
      var done := false;
      while !done
        invariant Items(old(buf)) == (items + Items(buf).0, Items(buf).1)
        invariant done ==> NextItem(buf).None?
        decreases |buf|, !done
      {
        var next := Next();
        match next
        case None =>
          done := true;
        case Some(item) =>
          Assoc(items, [item], Items(buf).0);
          items := items + [item];
      }
      assert items + Items(buf).0 == items;
    }
  }
}
