/** The lender's pools: a block allocator for receive buffers, and a best-fit cache of transfers. */
module Pools {
  import opened Wrappers

  // ---- Block allocator ----

  const BUF_LEN: nat := 65536

  /** A block's spare bytes: from `start` to its end. What lies before has been handed out. */
  datatype Block = Block(storage: nat, start: nat)

  /** A piece of a block that somebody holds; `ticket` tells empty pieces apart. */
  datatype Region = Region(storage: nat, start: nat, len: nat, ticket: nat)

  predicate Overlap(a: Region, b: Region) {
    a.storage == b.storage && a.start < b.start + b.len && b.start < a.start + a.len
  }

  predicate Unshared(storage: nat, alive: set<Region>) {
    forall r :: r in alive ==> r.storage != storage
  }

  /** Enough spare bytes, or nobody holds a piece of the block anymore and all of it can be reclaimed. */
  predicate Fits(b: Block, alive: set<Region>, n: nat) {
    b.start + n <= BUF_LEN || Unshared(b.storage, alive)
  }

  /** Where the block's spare bytes begin once `n` of them are reclaimed. */
  function ReclaimedFrom(b: Block, n: nat): nat {
    if b.start + n <= BUF_LEN then b.start else 0
  }

  /** All pieces lie in blocks, below the spare bytes, and overlap nowhere. */
  ghost predicate Separate(queue: seq<Block>, alive: set<Region>, storages: nat, tickets: nat) {
    && (forall i, j :: 0 <= i < j < |queue| ==> queue[i].storage != queue[j].storage)
    && (forall b :: b in queue ==> b.storage < storages && b.start <= BUF_LEN)
    && (forall r :: r in alive ==> r.storage < storages && r.ticket < tickets && r.start + r.len <= BUF_LEN)
    && (forall b, r :: b in queue && r in alive && b.storage == r.storage ==> r.start + r.len <= b.start)
    && (forall r, s :: r in alive && s in alive && r != s ==> !Overlap(r, s))
  }

  function Rotated(queue: seq<Block>, i: nat): seq<Block>
    requires i <= |queue|
  {
    queue[i..] + queue[..i]
  }

  lemma RotateKeepsSeparate(queue: seq<Block>, i: nat, alive: set<Region>, storages: nat, tickets: nat)
    requires Separate(queue, alive, storages, tickets) && i <= |queue|
    ensures Separate(Rotated(queue, i), alive, storages, tickets)
  {
  }

  /** Splitting from the front block the piece it can give keeps everything separate. */
  lemma SplitKeepsSeparate(queue: seq<Block>, alive: set<Region>, storages: nat, tickets: nat, n: nat)
    requires Separate(queue, alive, storages, tickets) && queue != [] && n <= BUF_LEN && Fits(queue[0], alive, n)
    ensures
      var b := queue[0];
      var mem := Region(b.storage, ReclaimedFrom(b, n), n, tickets);
      && (forall r :: r in alive ==> !Overlap(r, mem))
      && Separate(queue[0 := Block(b.storage, mem.start + n)], alive + {mem}, storages, tickets + 1)
  {
  }

  lemma FreshBlockSeparate(queue: seq<Block>, alive: set<Region>, storages: nat, tickets: nat)
    requires Separate(queue, alive, storages, tickets)
    ensures Separate([Block(storages, 0)] + queue, alive, storages + 1, tickets)
  {
  }

  /** The first block that fits, or the length of the queue. */
  function FirstFit(queue: seq<Block>, alive: set<Region>, n: nat): (i: nat)
    ensures i <= |queue|
    ensures i < |queue| ==> Fits(queue[i], alive, n)
    ensures forall k :: 0 <= k < i ==> !Fits(queue[k], alive, n)
  {
    if queue == [] || Fits(queue[0], alive, n) then 0 else 1 + FirstFit(queue[1..], alive, n)
  }

  /** A block of 65536 bytes can give `n` if so many follow `start`, or if nobody holds a piece of it. */
  predicate CanGive(start: nat, storage: nat, alive: set<Region>, n: nat) {
    n <= 65536 - start || forall r :: r in alive ==> r.storage != storage
  }

  /** A block is found exactly when one can give enough; so a free block is always used again. */
  lemma FirstFitIff(queue: seq<Block>, alive: set<Region>, n: nat)
    ensures FirstFit(queue, alive, n) < |queue| <==>
      exists i :: 0 <= i < |queue| && CanGive(queue[i].start, queue[i].storage, alive, n)
  {
    if FirstFit(queue, alive, n) < |queue| {
      var i := FirstFit(queue, alive, n);
      assert CanGive(queue[i].start, queue[i].storage, alive, n);
    }
  }

  lemma FirstFitIs(queue: seq<Block>, alive: set<Region>, n: nat, i: nat)
    requires i <= |queue| && (i < |queue| ==> Fits(queue[i], alive, n))
    requires forall k :: 0 <= k < i ==> !Fits(queue[k], alive, n)
    ensures FirstFit(queue, alive, n) == i
  {
  }

  class BytesAllocator {
    var queue: seq<Block>
    /** The pieces not dropped yet: the blocks' reference counts. */
    var alive: set<Region>
    var storages: nat
    var tickets: nat

    ghost predicate Valid()
      reads this
    {
      Separate(queue, alive, storages, tickets)
    }

    constructor (capacity: nat)
      ensures Valid() && |queue| == capacity && alive == {}
      ensures forall b :: b in queue ==> b.start == 0
    {
      queue := seq(capacity, i requires 0 <= i => Block(i, 0));
      alive, storages, tickets := {}, capacity, 0;
    }

    /**
     Exactly `numBytes` bytes that nobody holds, from the first block that can give them; the blocks
     that could not go to the end. If none can, a new block goes to the front and the rest stay in order.
     */
    method Reserve(numBytes: nat) returns (mem: Region)
      requires Valid() && numBytes <= BUF_LEN
      modifies this
      ensures Valid()
      ensures mem.len == numBytes && mem !in old(alive) && alive == old(alive) + {mem}
      ensures forall r :: r in old(alive) ==> !Overlap(r, mem)
      ensures
        var q := old(queue);
        var i := FirstFit(q, old(alive), numBytes);
        if i < |q| then
          && mem.storage == q[i].storage && mem.start == (if q[i].start + numBytes <= 65536 then q[i].start else 0)
          && queue == Rotated(q, i)[0 := Block(mem.storage, mem.start + numBytes)]
        else
          && mem.storage == old(storages) && mem.start == 0
          && queue == [Block(mem.storage, numBytes)] + q
      ensures storages == old(storages) <==>
        exists i :: 0 <= i < |old(queue)| && CanGive(old(queue)[i].start, old(queue)[i].storage, old(alive), numBytes)
    {
      MakeRoom(numBytes);
      mem := SplitFront(numBytes);
    }

    /** Brings a block that fits to the front, a new one if need be. */
    method MakeRoom(numBytes: nat)
      requires Valid() && numBytes <= BUF_LEN
      modifies this`queue, this`storages
      ensures Valid() && queue != [] && Fits(queue[0], alive, numBytes)
      ensures
        var q := old(queue);
        var i := FirstFit(q, alive, numBytes);
        if i < |q| then queue == Rotated(q, i) && queue[0] == q[i] && storages == old(storages)
        else queue == [Block(old(storages), 0)] + q && storages == old(storages) + 1
      ensures storages == old(storages) <==>
        exists i :: 0 <= i < |old(queue)| && CanGive(old(queue)[i].start, old(queue)[i].storage, alive, numBytes)
    {
      ghost var q := queue;
      FirstFitIff(queue, alive, numBytes);
      var i := RotateToFit(numBytes);
      if i == |queue| {
        PushBlock();
      } else {
        RotateKeepsSeparate(q, i, alive, storages, tickets);
      }
    }

    method PushBlock()
      requires Valid()
      modifies this`queue, this`storages
      ensures Valid() && queue == [Block(old(storages), 0)] + old(queue) && storages == old(storages) + 1
    {
      FreshBlockSeparate(queue, alive, storages, tickets);
      queue, storages := [Block(storages, 0)] + queue, storages + 1;
    }

    /** Blocks at the front that cannot give `numBytes` go to the end, at most once around. */
    method RotateToFit(numBytes: nat) returns (i: nat)
      modifies this`queue
      ensures i == FirstFit(old(queue), alive, numBytes) <= |queue| == |old(queue)|
      ensures queue == Rotated(old(queue), i)
      ensures i < |queue| ==> queue[0] == old(queue)[i]
      ensures i == |queue| ==> queue == old(queue)
    {
      ghost var q := queue;
      i := 0;
      while i < |queue| && !Fits(queue[0], alive, numBytes)
        invariant 0 <= i <= |q| == |queue|
        invariant queue == Rotated(q, i)
        invariant forall k :: 0 <= k < i ==> !Fits(q[k], alive, numBytes)
      {
        assert queue[0] == q[i];
        queue := queue[1..] + [queue[0]];
        i := i + 1;
      }
      FirstFitIs(q, alive, numBytes, i);
    }

    method SplitFront(numBytes: nat) returns (mem: Region)
      requires Valid() && queue != [] && numBytes <= BUF_LEN && Fits(queue[0], alive, numBytes)
      modifies this`queue, this`alive, this`tickets
      ensures Valid()
      ensures mem == Region(old(queue)[0].storage, ReclaimedFrom(old(queue)[0], numBytes), numBytes, old(tickets))
      ensures mem !in old(alive) && forall r :: r in old(alive) ==> !Overlap(r, mem)
      ensures queue == old(queue)[0 := Block(mem.storage, mem.start + numBytes)]
      ensures alive == old(alive) + {mem}
    {
      var b := queue[0];
      mem := Region(b.storage, ReclaimedFrom(b, numBytes), numBytes, tickets);
      SplitKeepsSeparate(queue, alive, storages, tickets, numBytes);
      queue, alive, tickets := queue[0 := Block(mem.storage, mem.start + numBytes)], alive + {mem}, tickets + 1;
    }

    /** The holder of a piece lets it go. */
    method Drop(mem: Region)
      requires Valid()
      modifies this`alive
      ensures Valid() && alive == old(alive) - {mem}
    {
      alive := alive - {mem};
    }
  }
  // ---- Best-fit cache of isochronous transfers ----

  /** A reusable transfer; `capacity` is the number of packets it has room for. */
  datatype Transfer = Transfer(id: nat, capacity: nat)

  datatype OneOrMany = One(transfer: Transfer) | Many(transfers: seq<Transfer>)

  type Cache = map<nat, OneOrMany>

  /** Capacities are cut to 16 bits to serve as keys. */
  function KeyOf(t: Transfer): nat {
    t.capacity % 0x1_0000
  }

  function Items(entry: OneOrMany): seq<Transfer> {
    match entry
    case One(t) => [t]
    case Many(ts) => ts
  }

  /** No entry is empty, and transfers are stored under their own keys. */
  ghost predicate Sorted(cache: Cache) {
    forall k :: k in cache ==> Items(cache[k]) != [] && forall t :: t in Items(cache[k]) ==> KeyOf(t) == k
  }

  /** How often a transfer is in the cache. */
  ghost function Count(cache: Cache, t: Transfer): nat {
    if KeyOf(t) in cache then multiset(Items(cache[KeyOf(t)]))[t] else 0
  }

  function Inserted(cache: Cache, t: Transfer): Cache {
    cache[KeyOf(t) := if KeyOf(t) in cache then Extended(cache[KeyOf(t)], t) else One(t)]
  }

  function Extended(entry: OneOrMany, t: Transfer): (r: OneOrMany)
    ensures multiset(Items(r)) == multiset(Items(entry)) + multiset{t}
    ensures forall x :: x in Items(r) <==> x in Items(entry) || x == t
  {
    match entry
    case One(other) => Many([t, other])
    case Many(ts) => Many(ts + [t])
  }

  /** The entry under `k` without its last transfer, which is also returned. */
  function Popped(cache: Cache, k: nat): (Cache, Transfer)
    requires Sorted(cache) && k in cache
  {
    match cache[k]
    case One(t) => (cache - {k}, t)
    case Many(ts) =>
      var last := |ts| - 1;
      (if last == 0 then cache - {k} else cache[k := Many(ts[..last])], ts[last])
  }

  lemma InsertSorted(cache: Cache, t: Transfer)
    requires Sorted(cache)
    ensures Sorted(Inserted(cache, t))
  {
  }

  lemma InsertCounts(cache: Cache, t: Transfer, x: Transfer)
    requires Sorted(cache)
    ensures Sorted(Inserted(cache, t))
    ensures Count(Inserted(cache, t), x) == Count(cache, x) + (if x == t then 1 else 0)
  {
    InsertSorted(cache, t);
  }

  /** What is popped is the last item of its entry, and nothing else changes. */
  lemma PopItems(cache: Cache, k: nat)
    requires Sorted(cache) && k in cache
    ensures
      var (rest, t) := Popped(cache, k);
      var ts := Items(cache[k]);
      && t == ts[|ts| - 1] && rest.Keys == cache.Keys - (if |ts| == 1 then {k} else {})
      && (|ts| > 1 ==> Items(rest[k]) == ts[..|ts| - 1])
      && (forall j :: j in rest && j != k ==> rest[j] == cache[j])
  {
  }

  lemma PopSorted(cache: Cache, k: nat)
    requires Sorted(cache) && k in cache
    ensures Sorted(Popped(cache, k).0) && KeyOf(Popped(cache, k).1) == k
  {
    PopItems(cache, k);
    var (rest, t) := Popped(cache, k);
    var ts := Items(cache[k]);
    assert t in ts;
    forall j | j in rest
      ensures Items(rest[j]) != [] && forall x :: x in Items(rest[j]) ==> KeyOf(x) == j
    {
      if j == k {
        assert forall x :: x in ts[..|ts| - 1] ==> x in ts;
      }
    }
  }

  lemma PopCounts(cache: Cache, k: nat, x: Transfer)
    requires Sorted(cache) && k in cache
    ensures
      var (rest, t) := Popped(cache, k);
      && Sorted(rest) && KeyOf(t) == k
      && Count(rest, x) == Count(cache, x) - (if x == t then 1 else 0)
  {
    PopSorted(cache, k);
    PopItems(cache, k);
    var ts := Items(cache[k]);
    if KeyOf(x) == k {
      assert ts == ts[..|ts| - 1] + [ts[|ts| - 1]];
    }
  }

  /** A transfer is in the cache, wherever. */
  ghost predicate Stored(cache: Cache, t: Transfer) {
    exists k :: k in cache && t in Items(cache[k])
  }

  lemma InsertStores(cache: Cache, t: Transfer, x: Transfer)
    ensures Stored(Inserted(cache, t), x) <==> Stored(cache, x) || x == t
  {
    var after, k := Inserted(cache, t), KeyOf(t);
    assert t in Items(after[k]);
    if j :| j in cache && x in Items(cache[j]) {
      assert x in Items(after[j]);
    }
  }

  /** What is popped is stored, and fits whenever its key does. */
  lemma PopIsStored(cache: Cache, n: nat, k: nat)
    requires Sorted(cache) && k in cache && n <= k
    ensures Stored(cache, Popped(cache, k).1) && n <= Popped(cache, k).1.capacity
  {
    PopItems(cache, k);
    assert Popped(cache, k).1 in Items(cache[k]);
  }

  /** Nothing is found exactly when no stored transfer has room, as 16 bits hold it. */
  lemma NoneFits(cache: Cache, n: nat)
    requires Sorted(cache)
    ensures (forall k :: k in cache ==> k < n) <==> (forall t :: Stored(cache, t) ==> t.capacity % 0x1_0000 < n)
  {
    if k :| k in cache && n <= k {
      var t := Items(cache[k])[0];
      assert t in Items(cache[k]) && Stored(cache, t);
    }
  }

  /** While capacities fit 16 bits, no stored transfer with room has less of it than the one found. */
  lemma BestFitIsLeast(cache: Cache, n: nat, k: nat, t: Transfer)
    requires Sorted(cache) && IsBestFit(cache, n, k) && Stored(cache, t) && n <= t.capacity < 0x1_0000
    requires Popped(cache, k).1.capacity < 0x1_0000
    ensures Popped(cache, k).1.capacity <= t.capacity
  {
    PopSorted(cache, k);
  }

  /** A stored transfer with room and, while capacities fit 16 bits, with the least of it. */
  ghost predicate Serves(cache: Cache, n: nat, best: Transfer) {
    && Stored(cache, best) && n <= best.capacity
    && ((forall t :: Stored(cache, t) ==> t.capacity < 0x1_0000) ==>
          forall t :: Stored(cache, t) && n <= t.capacity ==> best.capacity <= t.capacity)
  }

  lemma BestFitServes(cache: Cache, n: nat, k: nat)
    requires Sorted(cache) && IsBestFit(cache, n, k)
    ensures Serves(cache, n, Popped(cache, k).1)
    ensures !(forall t :: Stored(cache, t) ==> t.capacity % 0x1_0000 < n)
  {
    PopIsStored(cache, n, k);
    NoneFits(cache, n);
    var best := Popped(cache, k).1;
    forall t | Stored(cache, t) && n <= t.capacity < 0x1_0000 && best.capacity < 0x1_0000
      ensures best.capacity <= t.capacity
    {
      BestFitIsLeast(cache, n, k, t);
    }
  }

  /** The least key that is at least `n`. */
  ghost predicate IsBestFit(cache: Cache, n: nat, k: nat) {
    k in cache && n <= k && forall j :: j in cache && n <= j ==> k <= j
  }

  lemma {:induction false} BestFitExists(cache: Cache, n: nat, bound: nat)
    requires exists k :: k in cache && n <= k <= bound
    ensures exists k :: IsBestFit(cache, n, k)
    decreases bound
  {
    var k :| k in cache && n <= k <= bound;
    if !IsBestFit(cache, n, k) {
      var j :| j in cache && n <= j < k;
      BestFitExists(cache, n, k - 1);
    }
  }

  class BigTransfers {
    var inner: Cache

    constructor ()
      ensures inner == map[] && Sorted(inner)
    {
      inner := map[];
    }

    method Insert(transfer: Transfer)
      requires Sorted(inner)
      modifies this
      ensures Sorted(inner) && inner == Inserted(old(inner), transfer)
      ensures forall x :: Stored(inner, x) <==> Stored(old(inner), x) || x == transfer
    {
      forall x
        ensures Stored(Inserted(inner, transfer), x) <==> Stored(inner, x) || x == transfer
      {
        InsertStores(inner, transfer, x);
      }
      InsertCounts(inner, transfer, transfer);
      var key := KeyOf(transfer);
      if key in inner {
        match inner[key]
        case One(other) => inner := inner[key := Many([transfer, other])];
        case Many(vec) => inner := inner[key := Many(vec + [transfer])];
      } else {
        inner := inner[key := One(transfer)];
      }
    }

    /**
     Best fit: nothing exactly when no stored transfer has room for `numIsoPackets`, and otherwise one with
     room and, while capacities fit 16 bits, with the least of it.
     */
    method Remove(numIsoPackets: nat) returns (r: Option<Transfer>)
      requires Sorted(inner)
      modifies this
      ensures Sorted(inner)
      ensures r.None? <==> forall t :: Stored(old(inner), t) ==> t.capacity % 0x1_0000 < numIsoPackets
      ensures (forall t :: Stored(old(inner), t) ==> t.capacity < 0x1_0000) ==>
        (r.None? <==> forall t :: Stored(old(inner), t) ==> t.capacity < numIsoPackets)
      ensures r.Some? ==> Serves(old(inner), numIsoPackets, r.value)
      ensures r.None? ==> inner == old(inner)
      ensures r.Some? ==>
        && IsBestFit(old(inner), numIsoPackets, KeyOf(r.value))
        && (inner, r.value) == Popped(old(inner), KeyOf(r.value))
    {
      if exists k :: k in inner && numIsoPackets <= k {
        ghost var some :| some in inner && numIsoPackets <= some;
        BestFitExists(inner, numIsoPackets, some);
        var numPkts :|
          numPkts in inner && numIsoPackets <= numPkts && forall j :: j in inner && numIsoPackets <= j ==> numPkts <= j;
        BestFitServes(inner, numIsoPackets, numPkts);
        var transfer := RemoveFrom(numPkts);
        r := Some(transfer);
      } else {
        NoneFits(inner, numIsoPackets);
        r := None;
      }
    }

    /** Takes the last transfer of an entry, and the entry too when it was the only one. */
    method RemoveFrom(numPkts: nat) returns (transfer: Transfer)
      requires Sorted(inner) && numPkts in inner
      modifies this
      ensures Sorted(inner) && KeyOf(transfer) == numPkts
      ensures (inner, transfer) == Popped(old(inner), numPkts)
    {
      PopCounts(inner, numPkts, Popped(inner, numPkts).1);
      var removeEntry := true;
      match inner[numPkts] {
        case One(t) =>
          transfer := t;
        case Many(vec) =>
          transfer := vec[|vec| - 1];
          if |vec| > 1 {
            removeEntry := false;
            inner := inner[numPkts := Many(vec[..|vec| - 1])];
          }
      }
      if removeEntry {
        inner := inner - {numPkts};
      }
    }
  }

  // ---- Runs of the cache ----

  datatype Op = Put(transfer: Transfer) | Take(transfer: Transfer)

  /** What a history of insertions and successful removals leaves. */
  ghost predicate Leads(cache: Cache, ops: seq<Op>, end: Cache)
    decreases |ops|
  {
    if ops == [] then
      cache == end
    else if !Sorted(cache) then
      false
    else
      match ops[0]
      case Put(t) => Leads(Inserted(cache, t), ops[1..], end)
      case Take(t) => exists k :: k in cache && Popped(cache, k).1 == t && Leads(Popped(cache, k).0, ops[1..], end)
  }

  function Balance(ops: seq<Op>, x: Transfer): int {
    if ops == [] then 0
    else (if ops[0] == Put(x) then 1 else if ops[0] == Take(x) then -1 else 0) + Balance(ops[1..], x)
  }

  /** No transfer is lost or duplicated by any sequence of insertions and removals. */
  lemma {:induction false} CacheConserves(cache: Cache, ops: seq<Op>, end: Cache, x: Transfer)
    requires Leads(cache, ops, end)
    ensures Count(end, x) == Count(cache, x) + Balance(ops, x)
    decreases |ops|
  {
    if ops != [] {
      match ops[0]
      case Put(t) =>
        InsertCounts(cache, t, x);
        CacheConserves(Inserted(cache, t), ops[1..], end, x);
      case Take(t) =>
        var k :| k in cache && Popped(cache, k).1 == t && Leads(Popped(cache, k).0, ops[1..], end);
        PopCounts(cache, k, x);
        CacheConserves(Popped(cache, k).0, ops[1..], end, x);
    }
  }
}
