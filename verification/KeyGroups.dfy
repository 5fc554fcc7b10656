/**
 What a reference-counted multi-key index stands for: values with disjoint groups of keys,
 each key reaching the value of its group. Nothing here depends on where a value is stored.
 */
module KeyGroups {
  import opened Wrappers

  /** Keys of the three kinds share one key space. */
  datatype Key<K1, K2, K3> = First(k1: K1) | Second(k2: K2) | Third(k3: K3)

  datatype LinkResult = Success | NewKeyAlreadyExists | ExistingKeyDoesNotExist

  /** `debt` counts the links to the value that were dropped without lowering its link count. */
  datatype Group<K(==), V> = Group(members: set<K>, value: V, debt: nat)

  /** Every key with its group. */
  type Groups<K(==), V> = map<K, Group<K, V>>

  /** The groups are a partition: members of one group agree on it. */
  ghost predicate WellFormed<K, V>(g: Groups<K, V>) {
    forall k :: k in g ==> k in g[k].members && AllInGroup(g, g[k])
  }

  ghost predicate AllInGroup<K, V>(g: Groups<K, V>, group: Group<K, V>) {
    forall j :: j in group.members ==> j in g && g[j] == group
  }

  ghost function Get<K, V>(g: Groups<K, V>, k: K): Option<V> {
    if k in g then Some(g[k].value) else None
  }

  /** Every member of `group`, and no other key, gets `group`. */
  ghost function Regroup<K, V>(g: Groups<K, V>, group: Group<K, V>): Groups<K, V> {
    map k | k in g.Keys + group.members :: if k in group.members then group else g[k]
  }

  ghost function Insert<K, V>(g: Groups<K, V>, k: K, v: V): Groups<K, V> {
    g[k := Group({k}, v, 0)]
  }

  ghost function LinkOutcome<K, V>(g: Groups<K, V>, newKey: K, existing: K): LinkResult {
    if newKey in g then NewKeyAlreadyExists
    else if existing in g then Success
    else ExistingKeyDoesNotExist
  }

  ghost function Link<K, V>(g: Groups<K, V>, newKey: K, existing: K): Groups<K, V> {
    if LinkOutcome(g, newKey, existing).Success? then
      Regroup(g, g[existing].(members := g[existing].members + {newKey}))
    else g
  }

  /** `k` is the last thing that keeps its value: the only key, and no link was ever dropped unpaid. */
  ghost predicate HoldsAlone<K, V>(g: Groups<K, V>, k: K) {
    k in g && g[k].members == {k} && g[k].debt == 0
  }

  ghost function Remove<K, V>(g: Groups<K, V>, k: K): Groups<K, V> {
    if k in g then Regroup(g - {k}, g[k].(members := g[k].members - {k})) else g
  }

  ghost function Removed<K, V>(g: Groups<K, V>, k: K): Option<V> {
    if HoldsAlone(g, k) then Some(g[k].value) else None
  }

  /** Drops every key of `k`'s group but `k`; the dropped links stay with the value as debt. */
  ghost function Isolate<K, V>(g: Groups<K, V>, k: K): Groups<K, V> {
    if k in g then
      var dropped := g[k].members - {k};
      (g - dropped)[k := Group({k}, g[k].value, g[k].debt + |dropped|)]
    else g
  }

  // ---- What the operations mean for lookups and groups ----

  lemma InsertGivesOwnGroup<K, V>(g: Groups<K, V>, k: K, v: V)
    requires WellFormed(g) && k !in g
    ensures WellFormed(Insert(g, k, v))
    ensures Insert(g, k, v)[k].members == {k} && Get(Insert(g, k, v), k) == Some(v)
    ensures forall other :: other in g ==> other in Insert(g, k, v) && Insert(g, k, v)[other] == g[other]
  {
  }

  lemma LinkJoinsGroup<K, V>(g: Groups<K, V>, newKey: K, existing: K)
    requires WellFormed(g) && newKey !in g && existing in g
    ensures WellFormed(Link(g, newKey, existing))
    ensures Link(g, newKey, existing).Keys == g.Keys + {newKey}
    ensures Link(g, newKey, existing)[newKey] == g[existing].(members := g[existing].members + {newKey})
    ensures forall k :: k in g ==>
      Link(g, newKey, existing)[k] == if k in g[existing].members then Link(g, newKey, existing)[newKey] else g[k]
  {
  }

  /** Removing a key takes out that key alone, and gives the value up exactly when the key held it alone. */
  lemma RemoveTakesOnlyThatKey<K, V>(g: Groups<K, V>, k: K)
    requires WellFormed(g)
    ensures WellFormed(Remove(g, k))
    ensures Remove(g, k).Keys == g.Keys - {k}
    ensures forall other :: other in g && other != k ==>
      Remove(g, k)[other] == g[other].(members := g[other].members - {k})
    ensures forall other :: other != k ==> Get(Remove(g, k), other) == Get(g, other)
    ensures Removed(g, k) == if HoldsAlone(g, k) then Get(g, k) else None
  {
  }

  lemma IsolateLeavesOneKey<K, V>(g: Groups<K, V>, k: K)
    requires WellFormed(g) && k in g
    ensures WellFormed(Isolate(g, k))
    ensures Isolate(g, k).Keys == g.Keys - (g[k].members - {k})
    ensures Isolate(g, k)[k] == Group({k}, g[k].value, g[k].debt + |g[k].members| - 1)
    ensures forall other :: other in g && other !in g[k].members ==> Isolate(g, k)[other] == g[other]
  {
  }

  // ---- Runs ----

  datatype Op<K, V> =
    | OpInsert(key: K, value: V)
    | OpLink(newKey: K, existing: K)
    | OpRemove(key: K)
    | OpIsolate(key: K)

  /** Inserts must use fresh keys; every other operation is allowed at any time. */
  ghost predicate Enabled<K, V>(g: Groups<K, V>, op: Op<K, V>) {
    op.OpInsert? ==> op.key !in g
  }

  ghost function Apply<K, V>(g: Groups<K, V>, op: Op<K, V>): Groups<K, V> {
    match op
    case OpInsert(k, v) => Insert(g, k, v)
    case OpLink(n, e) => Link(g, n, e)
    case OpRemove(k) => Remove(g, k)
    case OpIsolate(k) => Isolate(g, k)
  }

  lemma ApplyKeepsWellFormed<K, V>(g: Groups<K, V>, op: Op<K, V>)
    requires WellFormed(g) && Enabled(g, op)
    ensures WellFormed(Apply(g, op))
  {
  }

  /** Every insert of the run uses a key that is fresh at that point. */
  ghost predicate CanRun<K, V>(g: Groups<K, V>, ops: seq<Op<K, V>>)
    decreases |ops|
  {
    ops == [] || (Enabled(g, ops[0]) && CanRun(Apply(g, ops[0]), ops[1..]))
  }

  ghost function Run<K, V>(g: Groups<K, V>, ops: seq<Op<K, V>>): Groups<K, V>
    decreases |ops|
  {
    if ops == [] then g else Run(Apply(g, ops[0]), ops[1..])
  }

  lemma {:induction false} RunKeepsWellFormed<K, V>(g: Groups<K, V>, ops: seq<Op<K, V>>)
    requires WellFormed(g) && CanRun(g, ops)
    ensures WellFormed(Run(g, ops))
    decreases |ops|
  {
    if ops != [] {
      ApplyKeepsWellFormed(g, ops[0]);
      RunKeepsWellFormed(Apply(g, ops[0]), ops[1..]);
    }
  }

  /**
   As long as a key stays in the index, its value stays the same and the debt of its group only
   grows. So once a link was dropped unpaid, removing the group's keys never gives the value back.
   */
  lemma {:induction false} KeyKeepsValueAndDebt<K, V>(g: Groups<K, V>, ops: seq<Op<K, V>>, k: K)
    requires WellFormed(g) && CanRun(g, ops) && k in g
    requires forall i :: 0 <= i <= |ops| ==> k in Run(g, ops[..i])
    ensures Get(Run(g, ops), k) == Get(g, k)
    ensures Run(g, ops)[k].debt >= g[k].debt
    ensures g[k].debt > 0 ==> Removed(Run(g, ops), k) == None
    decreases |ops|
  {
    assert ops[..|ops|] == ops;
    if ops != [] {
      var h := Apply(g, ops[0]);
      ApplyKeepsWellFormed(g, ops[0]);
      assert ops[..1] == [ops[0]];
      assert Run(g, ops[..1]) == Run(h, []) == h;
      StepKeepsValueAndDebt(g, ops[0], k);
      forall i | 0 <= i <= |ops[1..]|
        ensures k in Run(h, ops[1..][..i])
      {
        assert ops[..i + 1][1..] == ops[1..][..i];
      }
      KeyKeepsValueAndDebt(h, ops[1..], k);
    }
  }

  lemma StepKeepsValueAndDebt<K, V>(g: Groups<K, V>, op: Op<K, V>, k: K)
    requires WellFormed(g) && Enabled(g, op) && k in g && k in Apply(g, op)
    ensures Apply(g, op)[k].value == g[k].value && Apply(g, op)[k].debt >= g[k].debt
  {
  }

  // ---- A value through all its keys ----

  /** The keys `ks` are exactly the keys of value `v`, with at least `debt` unpaid links. */
  ghost predicate Holds<K, V>(g: Groups<K, V>, ks: set<K>, v: V, debt: nat) {
    forall k :: k in ks ==> k in g && g[k].members == ks && g[k].value == v && g[k].debt >= debt
  }

  /** The keys of the value after the operation. */
  ghost function Follow<K, V>(g: Groups<K, V>, ks: set<K>, op: Op<K, V>): set<K> {
    match op
    case OpInsert(_, _) => ks
    case OpLink(n, e) => if e in ks && n !in g then ks + {n} else ks
    case OpRemove(k) => ks - {k}
    case OpIsolate(k) => if k in ks then {k} else ks
  }

  ghost function FollowAll<K, V>(g: Groups<K, V>, ks: set<K>, ops: seq<Op<K, V>>): set<K>
    decreases |ops|
  {
    if ops == [] then ks else FollowAll(Apply(g, ops[0]), Follow(g, ks, ops[0]), ops[1..])
  }

  lemma StepHolds<K, V>(g: Groups<K, V>, ks: set<K>, v: V, debt: nat, op: Op<K, V>)
    requires WellFormed(g) && Enabled(g, op) && Holds(g, ks, v, debt)
    ensures Holds(Apply(g, op), Follow(g, ks, op), v, debt)
  {
    match op
    case OpInsert(k, w) => InsertGivesOwnGroup(g, k, w);
    case OpLink(n, e) =>
      if n !in g && e in g {
        LinkJoinsGroup(g, n, e);
        assert AllInGroup(g, g[e]) && e in g[e].members;
      }
    case OpRemove(k) => RemoveTakesOnlyThatKey(g, k);
    case OpIsolate(k) =>
      if k in g {
        IsolateLeavesOneKey(g, k);
        assert AllInGroup(g, g[k]) && k in g[k].members;
      }
  }

  /** A removal gives the value up exactly when it takes its last key and nothing is unpaid. */
  lemma GivenUpExactly<K, V>(g: Groups<K, V>, ks: set<K>, v: V, debt: nat, k: K)
    requires WellFormed(g) && Holds(g, ks, v, debt) && k in ks
    ensures Removed(g, k) == if ks == {k} && g[k].debt == 0 then Some(v) else None
  {
  }

  /** No removal of one of the value's keys along the run gives the value up. */
  ghost predicate NeverGivenUp<K, V>(g: Groups<K, V>, ks: set<K>, ops: seq<Op<K, V>>)
    decreases |ops|
  {
    ops != [] ==>
      && (ops[0].OpRemove? && ops[0].key in ks ==> Removed(g, ops[0].key) == None)
      && NeverGivenUp(Apply(g, ops[0]), Follow(g, ks, ops[0]), ops[1..])
  }

  /**
   However the keys of a value come and go, it stays the value of exactly those keys and what is unpaid
   stays unpaid; so once a link was dropped, no removal ever gives the value up, its last key's included.
   */
  lemma {:induction false} UnpaidValueIsNeverGivenUp<K, V>(
      g: Groups<K, V>, ks: set<K>, v: V, debt: nat, ops: seq<Op<K, V>>)
    requires WellFormed(g) && CanRun(g, ops) && Holds(g, ks, v, debt)
    ensures Holds(Run(g, ops), FollowAll(g, ks, ops), v, debt)
    ensures debt > 0 ==> NeverGivenUp(g, ks, ops)
    decreases |ops|
  {
    if ops != [] {
      ApplyKeepsWellFormed(g, ops[0]);
      StepHolds(g, ks, v, debt, ops[0]);
      UnpaidValueIsNeverGivenUp(Apply(g, ops[0]), Follow(g, ks, ops[0]), v, debt, ops[1..]);
    }
  }

  /** Dropping links of a group with more than one key leaves some unpaid. */
  lemma IsolateLeavesUnpaid<K, V>(g: Groups<K, V>, k: K)
    requires WellFormed(g) && k in g
    ensures Holds(Isolate(g, k), {k}, g[k].value, g[k].debt + |g[k].members| - 1)
  {
    IsolateLeavesOneKey(g, k);
  }
}
