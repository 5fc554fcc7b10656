/**
 The index with three kinds of keys: three maps into one vector of values with link counts.
 Freed values leave the vector by swap-remove and the survivors are renumbered.
 */
module ThreeKeyIndex {
  import opened Wrappers
  import opened KeyGroups

  type Slots<V> = seq<(V, nat)>

  // ---- Representation ----

  /** `links` is the three maps as one. */
  ghost predicate Joined<K1(!new), K2(!new), K3(!new)>(links: map<Key<K1, K2, K3>, nat>,
                                                       m1: map<K1, nat>, m2: map<K2, nat>, m3: map<K3, nat>) {
    && (forall a :: First(a) in links <==> a in m1)
    && (forall a :: a in m1 ==> links[First(a)] == m1[a])
    && (forall b :: Second(b) in links <==> b in m2)
    && (forall b :: b in m2 ==> links[Second(b)] == m2[b])
    && (forall c :: Third(c) in links <==> c in m3)
    && (forall c :: c in m3 ==> links[Third(c)] == m3[c])
  }

  ghost function LinksTo<K>(links: map<K, nat>, index: nat): set<K> {
    set k | k in links && links[k] == index
  }

  /** Slot `i` holds the group: its value, the links to it, and a count of these links plus the unpaid ones. */
  ghost predicate HeldAt<K, V>(group: Group<K, V>, links: map<K, nat>, slots: Slots<V>, i: nat) {
    && i < |slots|
    && group.members == LinksTo(links, i)
    && group.value == slots[i].0
    && slots[i].1 == |group.members| + group.debt
  }

  /** Links and slots store the groups `g`; in particular every stored index is in bounds. */
  ghost predicate Represents<K, V>(g: Groups<K, V>, links: map<K, nat>, slots: Slots<V>) {
    && g.Keys == links.Keys
    && (forall k :: k in links ==> HeldAt(g[k], links, slots, links[k]))
  }

  /** No slot outlives its count. */
  predicate Counted<V>(slots: Slots<V>) {
    forall i :: 0 <= i < |slots| ==> slots[i].1 > 0
  }

  lemma RepresentsWellFormed<K, V>(g: Groups<K, V>, links: map<K, nat>, slots: Slots<V>)
    requires Represents(g, links, slots)
    ensures WellFormed(g)
  {
  }

  // ---- Each operation on links and slots is the operation on groups ----

  lemma InsertRepresents<K, V>(g: Groups<K, V>, links: map<K, nat>, slots: Slots<V>, k: K, v: V)
    requires Represents(g, links, slots) && k !in links
    ensures Represents(Insert(g, k, v), links[k := |slots|], slots + [(v, 1)])
  {
  }

  lemma LinkRepresents<K, V>(g: Groups<K, V>, links: map<K, nat>, slots: Slots<V>, newKey: K, existing: K)
    requires Represents(g, links, slots) && newKey !in links && existing in links
    ensures
      var i := links[existing];
      i < |slots| && Represents(Link(g, newKey, existing), links[newKey := i], slots[i := (slots[i].0, slots[i].1 + 1)])
  {
  }

  /** The count never underflows, and it tells whether a key holds its value alone. */
  lemma CountTellsHoldsAlone<K, V>(g: Groups<K, V>, links: map<K, nat>, slots: Slots<V>, k: K)
    requires Represents(g, links, slots) && k in links
    ensures links[k] < |slots| && slots[links[k]].1 > 0
    ensures HoldsAlone(g, k) <==> slots[links[k]].1 == 1
  {
    var i := links[k];
    assert HeldAt(g[k], links, slots, i);
    assert k in LinksTo(links, i);
    if slots[i].1 == 1 {
      assert |g[k].members - {k}| == 0;
      assert g[k].members == {k};
    }
  }

  lemma UnhookRepresents<K, V>(g: Groups<K, V>, links: map<K, nat>, slots: Slots<V>, k: K)
    requires Represents(g, links, slots) && k in links && links[k] < |slots| && slots[links[k]].1 > 0
    ensures
      var i := links[k];
      Represents(Remove(g, k), links - {k}, slots[i := (slots[i].0, slots[i].1 - 1)])
  {
  }

  function Renumber<K>(links: map<K, nat>, from: nat, to: nat): map<K, nat> {
    map k | k in links :: if links[k] == from then to else links[k]
  }

  function SwapRemoved<T>(s: seq<T>, index: nat): (r: seq<T>)
    requires index < |s|
    ensures |r| == |s| - 1
  {
    if index == |s| - 1 then s[..index] else s[..|s| - 1][index := s[|s| - 1]]
  }

  /** Swap-removing a slot without links and renumbering the links to the slot that moved changes no group. */
  lemma SwapRemoveRepresents<K, V>(g: Groups<K, V>, links: map<K, nat>, slots: Slots<V>, i: nat)
    requires Represents(g, links, slots) && i < |slots| && LinksTo(links, i) == {}
    ensures Represents(g, Renumber(links, |slots| - 1, i), SwapRemoved(slots, i))
  {
    var last := |slots| - 1;
    var newLinks, newSlots := Renumber(links, last, i), SwapRemoved(slots, i);
    forall k | k in links
      ensures HeldAt(g[k], newLinks, newSlots, newLinks[k])
    {
      assert HeldAt(g[k], links, slots, links[k]);
      assert k in LinksTo(links, links[k]);
      assert LinksTo(newLinks, newLinks[k]) == LinksTo(links, links[k]) by {
        forall j | j in links
          ensures newLinks[j] == newLinks[k] <==> links[j] == links[k]
        {
          assert j in LinksTo(links, links[j]);
        }
      }
    }
  }

  lemma IsolateRepresents<K, V>(g: Groups<K, V>, links: map<K, nat>, slots: Slots<V>, k: K)
    requires Represents(g, links, slots) && k in links
    ensures Represents(Isolate(g, k), links - (LinksTo(links, links[k]) - {k}), slots)
  {
  }

  /** The links that `HashMap::retain` keeps when all links to `index` go, except those of `kept`. */
  function Retain<K>(m: map<K, nat>, index: nat, kept: set<K>): map<K, nat> {
    map k | k in m && (k in kept || m[k] != index) :: m[k]
  }

  // ---- Operations on borrowed maps, handed back updated ----

  ghost predicate InBounds<K, V>(links: map<K, nat>, slots: Slots<V>) {
    forall k :: k in links ==> links[k] < |slots|
  }

  method LinkKeyToKey<A(==), B(==), V>(
      map1: map<A, nat>, map2: map<B, nat>, values: Slots<V>, newKey: A, existingKey: B)
    returns (r: LinkResult, links: map<A, nat>, slots: Slots<V>)
    requires InBounds(map2, values)
    ensures r == (if newKey in map1 then NewKeyAlreadyExists
                  else if existingKey in map2 then Success
                  else ExistingKeyDoesNotExist)
    ensures !r.Success? ==> links == map1 && slots == values
    ensures r.Success? ==>
      var i := map2[existingKey];
      links == map1[newKey := i] && slots == values[i := (values[i].0, values[i].1 + 1)]
  {
    links, slots := map1, values;
    if newKey in map1 {
      return NewKeyAlreadyExists, links, slots;
    }
    if existingKey in map2 {
      var index := map2[existingKey];
      links := links[newKey := index];
      slots := slots[index := (slots[index].0, slots[index].1 + 1)];
      r := Success;
    } else {
      r := ExistingKeyDoesNotExist;
    }
  }

  /**
   Pushes first and pops again when the key was taken: an overwriting insert hands back the
   value just offered and leaves the key pointing one past the end of the vector.
   */
  method InsertByKey<K(==), V>(links: map<K, nat>, values: Slots<V>, k: K, v: V)
    returns (displaced: Option<V>, newLinks: map<K, nat>, slots: Slots<V>)
    ensures newLinks == links[k := |values|]
    ensures k !in links ==> displaced == None && slots == values + [(v, 1)]
    ensures k in links ==> displaced == Some(v) && slots == values
  {
    slots := values + [(v, 1)];
    var index := |slots| - 1;
    newLinks := links[k := index];
    if k in links {
      displaced := Some(slots[|slots| - 1].0);
      slots := slots[..|slots| - 1];
    } else {
      displaced := None;
    }
  }

  /** Drops a link and lowers its slot's count; hands back the slot and the count left. */
  method RemoveByKey<K(==), V>(links: map<K, nat>, values: Slots<V>, k: K)
    returns (r: Option<(nat, nat)>, newLinks: map<K, nat>, slots: Slots<V>)
    requires k in links ==> links[k] < |values| && values[links[k]].1 > 0
    ensures newLinks == links - {k}
    ensures k !in links ==> r == None && slots == values
    ensures k in links ==>
      var i, count := links[k], values[links[k]].1 - 1;
      r == Some((i, count)) && slots == values[i := (values[i].0, count)]
  {
    newLinks, slots := links - {k}, values;
    if k !in links {
      return None, newLinks, slots;
    }
    var index := links[k];
    var count := slots[index].1 - 1;
    slots := slots[index := (slots[index].0, count)];
    r := Some((index, count));
  }

  // ---- The same for the three maps ----

  /** The three maps and the vector store the groups; `links` is the maps as one. */
  ghost predicate Stores<K1(!new), K2(!new), K3(!new), V>(
      groups: Groups<Key<K1, K2, K3>, V>, links: map<Key<K1, K2, K3>, nat>,
      m1: map<K1, nat>, m2: map<K2, nat>, m3: map<K3, nat>, values: Slots<V>) {
    && Joined(links, m1, m2, m3)
    && Represents(groups, links, values)
    && Counted(values)
  }

  lemma StoredInBounds<K1(!new), K2(!new), K3(!new), V>(
      groups: Groups<Key<K1, K2, K3>, V>, links: map<Key<K1, K2, K3>, nat>,
      m1: map<K1, nat>, m2: map<K2, nat>, m3: map<K3, nat>, values: Slots<V>)
    requires Stores(groups, links, m1, m2, m3, values)
    ensures InBounds(m1, values) && InBounds(m2, values) && InBounds(m3, values)
  {
  }

  lemma Insert1Stores<K1(!new), K2(!new), K3(!new), V>(
      groups: Groups<Key<K1, K2, K3>, V>, links: map<Key<K1, K2, K3>, nat>,
      m1: map<K1, nat>, m2: map<K2, nat>, m3: map<K3, nat>, values: Slots<V>, k: K1, v: V)
    requires Stores(groups, links, m1, m2, m3, values) && k !in m1
    ensures
      Stores(Insert(groups, First(k), v), links[First(k) := |values|], m1[k := |values|], m2, m3, values + [(v, 1)])
  {
    InsertRepresents(groups, links, values, First(k), v);
  }

  lemma Link2To1Stores<K1(!new), K2(!new), K3(!new), V>(
      groups: Groups<Key<K1, K2, K3>, V>, links: map<Key<K1, K2, K3>, nat>,
      m1: map<K1, nat>, m2: map<K2, nat>, m3: map<K3, nat>, values: Slots<V>, newKey: K2, existing: K1)
    requires Stores(groups, links, m1, m2, m3, values) && newKey !in m2 && existing in m1
    ensures
      var i := m1[existing];
      && i < |values|
      && Stores(Link(groups, Second(newKey), First(existing)), links[Second(newKey) := i],
                m1, m2[newKey := i], m3, values[i := (values[i].0, values[i].1 + 1)])
  {
    LinkRepresents(groups, links, values, Second(newKey), First(existing));
  }

  lemma Link3To1Stores<K1(!new), K2(!new), K3(!new), V>(
      groups: Groups<Key<K1, K2, K3>, V>, links: map<Key<K1, K2, K3>, nat>,
      m1: map<K1, nat>, m2: map<K2, nat>, m3: map<K3, nat>, values: Slots<V>, newKey: K3, existing: K1)
    requires Stores(groups, links, m1, m2, m3, values) && newKey !in m3 && existing in m1
    ensures
      var i := m1[existing];
      && i < |values|
      && Stores(Link(groups, Third(newKey), First(existing)), links[Third(newKey) := i],
                m1, m2, m3[newKey := i], values[i := (values[i].0, values[i].1 + 1)])
  {
    LinkRepresents(groups, links, values, Third(newKey), First(existing));
  }

  lemma Link3To2Stores<K1(!new), K2(!new), K3(!new), V>(
      groups: Groups<Key<K1, K2, K3>, V>, links: map<Key<K1, K2, K3>, nat>,
      m1: map<K1, nat>, m2: map<K2, nat>, m3: map<K3, nat>, values: Slots<V>, newKey: K3, existing: K2)
    requires Stores(groups, links, m1, m2, m3, values) && newKey !in m3 && existing in m2
    ensures
      var i := m2[existing];
      && i < |values|
      && Stores(Link(groups, Third(newKey), Second(existing)), links[Third(newKey) := i],
                m1, m2, m3[newKey := i], values[i := (values[i].0, values[i].1 + 1)])
  {
    LinkRepresents(groups, links, values, Third(newKey), Second(existing));
  }

  lemma Unhook1Stores<K1(!new), K2(!new), K3(!new), V>(
      groups: Groups<Key<K1, K2, K3>, V>, links: map<Key<K1, K2, K3>, nat>,
      m1: map<K1, nat>, m2: map<K2, nat>, m3: map<K3, nat>, values: Slots<V>, k: K1)
    requires Stores(groups, links, m1, m2, m3, values) && k in m1
    ensures m1[k] < |values| && values[m1[k]].1 > 0
    ensures
      var i := m1[k];
      var slots := values[i := (values[i].0, values[i].1 - 1)];
      && Joined(links - {First(k)}, m1 - {k}, m2, m3)
      && Represents(Remove(groups, First(k)), links - {First(k)}, slots)
      && (slots[i].1 == 0 ==> LinksTo(links - {First(k)}, i) == {})
      && Removed(groups, First(k)) == (if slots[i].1 == 0 then Some(slots[i].0) else None)
  {
    CountTellsHoldsAlone(groups, links, values, First(k));
    UnhookRepresents(groups, links, values, First(k));
    assert HeldAt(groups[First(k)], links, values, links[First(k)]);
  }

  lemma Unhook2Stores<K1(!new), K2(!new), K3(!new), V>(
      groups: Groups<Key<K1, K2, K3>, V>, links: map<Key<K1, K2, K3>, nat>,
      m1: map<K1, nat>, m2: map<K2, nat>, m3: map<K3, nat>, values: Slots<V>, k: K2)
    requires Stores(groups, links, m1, m2, m3, values) && k in m2
    ensures m2[k] < |values| && values[m2[k]].1 > 0
    ensures
      var i := m2[k];
      var slots := values[i := (values[i].0, values[i].1 - 1)];
      && Joined(links - {Second(k)}, m1, m2 - {k}, m3)
      && Represents(Remove(groups, Second(k)), links - {Second(k)}, slots)
      && (slots[i].1 == 0 ==> LinksTo(links - {Second(k)}, i) == {})
      && Removed(groups, Second(k)) == (if slots[i].1 == 0 then Some(slots[i].0) else None)
  {
    CountTellsHoldsAlone(groups, links, values, Second(k));
    UnhookRepresents(groups, links, values, Second(k));
    assert HeldAt(groups[Second(k)], links, values, links[Second(k)]);
  }

  lemma Unhook3Stores<K1(!new), K2(!new), K3(!new), V>(
      groups: Groups<Key<K1, K2, K3>, V>, links: map<Key<K1, K2, K3>, nat>,
      m1: map<K1, nat>, m2: map<K2, nat>, m3: map<K3, nat>, values: Slots<V>, k: K3)
    requires Stores(groups, links, m1, m2, m3, values) && k in m3
    ensures m3[k] < |values| && values[m3[k]].1 > 0
    ensures
      var i := m3[k];
      var slots := values[i := (values[i].0, values[i].1 - 1)];
      && Joined(links - {Third(k)}, m1, m2, m3 - {k})
      && Represents(Remove(groups, Third(k)), links - {Third(k)}, slots)
      && (slots[i].1 == 0 ==> LinksTo(links - {Third(k)}, i) == {})
      && Removed(groups, Third(k)) == (if slots[i].1 == 0 then Some(slots[i].0) else None)
  {
    CountTellsHoldsAlone(groups, links, values, Third(k));
    UnhookRepresents(groups, links, values, Third(k));
    assert HeldAt(groups[Third(k)], links, values, links[Third(k)]);
  }

  lemma SwapRemoveStores<K1(!new), K2(!new), K3(!new), V>(
      groups: Groups<Key<K1, K2, K3>, V>, links: map<Key<K1, K2, K3>, nat>,
      m1: map<K1, nat>, m2: map<K2, nat>, m3: map<K3, nat>, values: Slots<V>, index: nat)
    requires Joined(links, m1, m2, m3) && Represents(groups, links, values)
    requires index < |values| && LinksTo(links, index) == {}
    requires forall i :: 0 <= i < |values| && i != index ==> values[i].1 > 0
    ensures
      var last := |values| - 1;
      Stores(groups, Renumber(links, last, index),
             Renumber(m1, last, index), Renumber(m2, last, index), Renumber(m3, last, index),
             SwapRemoved(values, index))
  {
    SwapRemoveRepresents(groups, links, values, index);
  }

  lemma Isolate1Stores<K1(!new), K2(!new), K3(!new), V>(
      groups: Groups<Key<K1, K2, K3>, V>, links: map<Key<K1, K2, K3>, nat>,
      m1: map<K1, nat>, m2: map<K2, nat>, m3: map<K3, nat>, values: Slots<V>, k: K1)
    requires Stores(groups, links, m1, m2, m3, values) && k in m1
    ensures
      var i := m1[k];
      Stores(Isolate(groups, First(k)), links - (LinksTo(links, i) - {First(k)}),
             Retain(m1, i, {k}), Retain(m2, i, {}), Retain(m3, i, {}), values)
  {
    IsolateRepresents(groups, links, values, First(k));
  }

  /** Takes a slot out by swap-remove and renumbers the links to the slot that moved, map by map. */
  method SwapRemove<A(==), B(==), C(==), V>(
      m1: map<A, nat>, m2: map<B, nat>, m3: map<C, nat>, values: Slots<V>, index: nat)
    returns (new1: map<A, nat>, new2: map<B, nat>, new3: map<C, nat>, slots: Slots<V>)
    requires index < |values|
    ensures new1 == Renumber(m1, |values| - 1, index)
    ensures new2 == Renumber(m2, |values| - 1, index)
    ensures new3 == Renumber(m3, |values| - 1, index)
    ensures slots == SwapRemoved(values, index)
  {
    var lastItemPosition := |values| - 1;
    slots := values[index := values[lastItemPosition]];
    slots := slots[..lastItemPosition];
    new1 := map k | k in m1 :: if m1[k] == lastItemPosition then index else m1[k];
    new2 := map k | k in m2 :: if m2[k] == lastItemPosition then index else m2[k];
    new3 := map k | k in m3 :: if m3[k] == lastItemPosition then index else m3[k];
  }

  class ThreeKeyMap<K1(==, !new), K2(==, !new), K3(==, !new), V> {
    var key1Map: map<K1, nat>
    var key2Map: map<K2, nat>
    var key3Map: map<K3, nat>
    var values: Slots<V>

    /** What the index stands for, and the three maps as one. */
    ghost var groups: Groups<Key<K1, K2, K3>, V>
    ghost var links: map<Key<K1, K2, K3>, nat>

    ghost predicate Valid()
      reads this
    {
      Stores(groups, links, key1Map, key2Map, key3Map, values)
    }

    constructor ()
      ensures Valid() && groups == map[]
    {
      key1Map, key2Map, key3Map, values := map[], map[], map[], [];
      groups, links := map[], map[];
    }

    function GetByKey1(k: K1): (r: Option<V>)
      reads this
      ensures Valid() ==> r == Get(groups, First(k))
    {
      assert Valid() && k in key1Map ==> HeldAt(groups[First(k)], links, values, links[First(k)]);
      if k in key1Map && key1Map[k] < |values| then Some(values[key1Map[k]].0) else None
    }

    function GetByKey2(k: K2): (r: Option<V>)
      reads this
      ensures Valid() ==> r == Get(groups, Second(k))
    {
      assert Valid() && k in key2Map ==> HeldAt(groups[Second(k)], links, values, links[Second(k)]);
      if k in key2Map && key2Map[k] < |values| then Some(values[key2Map[k]].0) else None
    }

    function GetByKey3(k: K3): (r: Option<V>)
      reads this
      ensures Valid() ==> r == Get(groups, Third(k))
    {
      assert Valid() && k in key3Map ==> HeldAt(groups[Third(k)], links, values, links[Third(k)]);
      if k in key3Map && key3Map[k] < |values| then Some(values[key3Map[k]].0) else None
    }

    /** Takes the maps and the vector back from an operation. */
    method Update(m1: map<K1, nat>, m2: map<K2, nat>, m3: map<K3, nat>, slots: Slots<V>,
                  ghost newGroups: Groups<Key<K1, K2, K3>, V>, ghost newLinks: map<Key<K1, K2, K3>, nat>)
      requires Stores(newGroups, newLinks, m1, m2, m3, slots)
      modifies this
      ensures Valid() && groups == newGroups && values == slots
    {
      key1Map, key2Map, key3Map, values, groups, links := m1, m2, m3, slots, newGroups, newLinks;
    }

    /** The index survives an insert exactly when the key was fresh. */
    method InsertByKey1(k: K1, v: V) returns (displaced: Option<V>)
      requires Valid()
      modifies this
      ensures Valid() <==> First(k) !in old(groups)
      ensures First(k) !in old(groups) ==> displaced == None && groups == Insert(old(groups), First(k), v)
      ensures First(k) in old(groups) ==>
        displaced == Some(v) && values == old(values) && key1Map == old(key1Map)[k := |values|]
    {
      ghost var newGroups, newLinks := groups, links[First(k) := |values|];
      var m, slots;
      displaced, m, slots := InsertByKey(key1Map, values, k, v);
      if k !in key1Map {
        Insert1Stores(groups, links, key1Map, key2Map, key3Map, values, k, v);
        newGroups := Insert(groups, First(k), v);
      } else {
        assert !HeldAt(groups[First(k)], newLinks, slots, |values|);
      }
      key1Map, values, groups, links := m, slots, newGroups, newLinks;
    }

    method LinkKey2ToKey1(newKey: K2, existingKey: K1) returns (r: LinkResult)
      requires Valid()
      modifies this
      ensures Valid()
      ensures r == LinkOutcome(old(groups), Second(newKey), First(existingKey))
      ensures groups == Link(old(groups), Second(newKey), First(existingKey))
    {
      assert Second(newKey) in groups <==> newKey in key2Map;
      assert First(existingKey) in groups <==> existingKey in key1Map;
      StoredInBounds(groups, links, key1Map, key2Map, key3Map, values);
      ghost var newGroups, newLinks := groups, links;
      var m, slots;
      r, m, slots := LinkKeyToKey(key2Map, key1Map, values, newKey, existingKey);
      if r.Success? {
        Link2To1Stores(groups, links, key1Map, key2Map, key3Map, values, newKey, existingKey);
        newGroups := Link(groups, Second(newKey), First(existingKey));
        newLinks := links[Second(newKey) := key1Map[existingKey]];
      }
      Update(key1Map, m, key3Map, slots, newGroups, newLinks);
    }

    method LinkKey3ToKey1(newKey: K3, existingKey: K1) returns (r: LinkResult)
      requires Valid()
      modifies this
      ensures Valid()
      ensures r == LinkOutcome(old(groups), Third(newKey), First(existingKey))
      ensures groups == Link(old(groups), Third(newKey), First(existingKey))
    {
      assert Third(newKey) in groups <==> newKey in key3Map;
      assert First(existingKey) in groups <==> existingKey in key1Map;
      StoredInBounds(groups, links, key1Map, key2Map, key3Map, values);
      ghost var newGroups, newLinks := groups, links;
      var m, slots;
      r, m, slots := LinkKeyToKey(key3Map, key1Map, values, newKey, existingKey);
      if r.Success? {
        Link3To1Stores(groups, links, key1Map, key2Map, key3Map, values, newKey, existingKey);
        newGroups := Link(groups, Third(newKey), First(existingKey));
        newLinks := links[Third(newKey) := key1Map[existingKey]];
      }
      Update(key1Map, key2Map, m, slots, newGroups, newLinks);
    }

    method LinkKey3ToKey2(newKey: K3, existingKey: K2) returns (r: LinkResult)
      requires Valid()
      modifies this
      ensures Valid()
      ensures r == LinkOutcome(old(groups), Third(newKey), Second(existingKey))
      ensures groups == Link(old(groups), Third(newKey), Second(existingKey))
    {
      assert Third(newKey) in groups <==> newKey in key3Map;
      assert Second(existingKey) in groups <==> existingKey in key2Map;
      StoredInBounds(groups, links, key1Map, key2Map, key3Map, values);
      ghost var newGroups, newLinks := groups, links;
      var m, slots;
      r, m, slots := LinkKeyToKey(key3Map, key2Map, values, newKey, existingKey);
      if r.Success? {
        Link3To2Stores(groups, links, key1Map, key2Map, key3Map, values, newKey, existingKey);
        newGroups := Link(groups, Third(newKey), Second(existingKey));
        newLinks := links[Third(newKey) := key2Map[existingKey]];
      }
      Update(key1Map, key2Map, m, slots, newGroups, newLinks);
    }

    method RemoveByKey1(k: K1) returns (r: Option<V>)
      requires Valid()
      modifies this
      ensures Valid() && groups == Remove(old(groups), First(k)) && r == Removed(old(groups), First(k))
      ensures |values| == |old(values)| - if r.Some? then 1 else 0
    {
      if k !in key1Map {
        assert First(k) !in groups;
        return None;
      }
      Unhook1Stores(groups, links, key1Map, key2Map, key3Map, values, k);
      ghost var newGroups, newLinks := Remove(groups, First(k)), links - {First(k)};
      var m1, m2, m3 := key1Map, key2Map, key3Map;
      var left, slots;
      left, m1, slots := RemoveByKey(key1Map, values, k);
      r := None;
      if left.value.1 == 0 {
        var index, value := left.value.0, slots[left.value.0].0;
        SwapRemoveStores(newGroups, newLinks, m1, m2, m3, slots, index);
        newLinks := Renumber(newLinks, |slots| - 1, index);
        m1, m2, m3, slots := SwapRemove(m1, m2, m3, slots, index);
        r := Some(value);
      }
      Update(m1, m2, m3, slots, newGroups, newLinks);
    }

    method RemoveByKey2(k: K2) returns (r: Option<V>)
      requires Valid()
      modifies this
      ensures Valid() && groups == Remove(old(groups), Second(k)) && r == Removed(old(groups), Second(k))
      ensures |values| == |old(values)| - if r.Some? then 1 else 0
    {
      if k !in key2Map {
        assert Second(k) !in groups;
        return None;
      }
      Unhook2Stores(groups, links, key1Map, key2Map, key3Map, values, k);
      ghost var newGroups, newLinks := Remove(groups, Second(k)), links - {Second(k)};
      var m1, m2, m3 := key1Map, key2Map, key3Map;
      var left, slots;
      left, m2, slots := RemoveByKey(key2Map, values, k);
      r := None;
      if left.value.1 == 0 {
        var index, value := left.value.0, slots[left.value.0].0;
        SwapRemoveStores(newGroups, newLinks, m1, m2, m3, slots, index);
        newLinks := Renumber(newLinks, |slots| - 1, index);
        m1, m2, m3, slots := SwapRemove(m1, m2, m3, slots, index);
        r := Some(value);
      }
      Update(m1, m2, m3, slots, newGroups, newLinks);
    }

    method RemoveByKey3(k: K3) returns (r: Option<V>)
      requires Valid()
      modifies this
      ensures Valid() && groups == Remove(old(groups), Third(k)) && r == Removed(old(groups), Third(k))
      ensures |values| == |old(values)| - if r.Some? then 1 else 0
    {
      if k !in key3Map {
        assert Third(k) !in groups;
        return None;
      }
      Unhook3Stores(groups, links, key1Map, key2Map, key3Map, values, k);
      ghost var newGroups, newLinks := Remove(groups, Third(k)), links - {Third(k)};
      var m1, m2, m3 := key1Map, key2Map, key3Map;
      var left, slots;
      left, m3, slots := RemoveByKey(key3Map, values, k);
      r := None;
      if left.value.1 == 0 {
        var index, value := left.value.0, slots[left.value.0].0;
        SwapRemoveStores(newGroups, newLinks, m1, m2, m3, slots, index);
        newLinks := Renumber(newLinks, |slots| - 1, index);
        m1, m2, m3, slots := SwapRemove(m1, m2, m3, slots, index);
        r := Some(value);
      }
      Update(m1, m2, m3, slots, newGroups, newLinks);
    }

    method UnlinkAllButKey1(k: K1)
      requires Valid()
      modifies this
      ensures Valid() && groups == Isolate(old(groups), First(k))
    {
      if k in key1Map {
        var index := key1Map[k];
        Isolate1Stores(groups, links, key1Map, key2Map, key3Map, values, k);
        var m1 := Retain(key1Map, index, {k});
        var m2 := Retain(key2Map, index, {});
        var m3 := Retain(key3Map, index, {});
        ghost var newGroups := Isolate(groups, First(k));
        ghost var newLinks := links - (LinksTo(links, index) - {First(k)});
        Update(m1, m2, m3, values, newGroups, newLinks);
      }
    }
  }
}
