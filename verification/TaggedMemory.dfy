/**
 The in-process tagged cache. The specification is one map from keys to values with their
 tags, plus the order of last use; the class keeps values and two tag indexes apart and
 updates them in place.
 */
module TaggedModel {
  import opened Wrappers

  type Key = string
  type Tag = string
  type Time = int

  datatype Item<V> = Item(value: V, tags: set<Tag>, expires: Time)

  /** `recency` lists the keys from the least to the most recently used. */
  datatype Model<V> = Model(items: map<Key, Item<V>>, recency: seq<Key>)

  ghost predicate Distinct(keys: seq<Key>) {
    forall i, j :: 0 <= i < j < |keys| ==> keys[i] != keys[j]
  }

  ghost predicate WellFormed<V>(m: Model<V>, maxSize: nat) {
    Distinct(m.recency) && (forall k :: k in m.recency <==> k in m.items) && |m.items| <= maxSize
  }

  function Without(keys: seq<Key>, gone: set<Key>): (kept: seq<Key>)
    ensures forall k :: k in kept <==> k in keys && k !in gone
    ensures |kept| <= |keys|
  {
    if keys == [] then []
    else if keys[0] in gone then Without(keys[1..], gone)
    else [keys[0]] + Without(keys[1..], gone)
  }

  function Remove<V>(m: Model<V>, gone: set<Key>): Model<V> {
    Model(m.items - gone, Without(m.recency, gone))
  }

  function ExpiredKeys<V>(m: Model<V>, now: Time): set<Key> {
    set k | k in m.items && m.items[k].expires <= now
  }

  function Live<V>(m: Model<V>, now: Time): Model<V> {
    Remove(m, ExpiredKeys(m, now))
  }

  function Touch(keys: seq<Key>, key: Key): seq<Key> {
    Without(keys, {key}) + [key]
  }

  function Get<V>(m: Model<V>, key: Key, now: Time): (Model<V>, Option<V>) {
    var live := Live(m, now);
    if key in live.items then (live.(recency := Touch(live.recency, key)), Some(live.items[key].value)) else (live, None)
  }

  /** Make room for a new key by dropping the least recently used one. */
  function Evict<V>(m: Model<V>, key: Key, maxSize: nat): Model<V> {
    if key !in m.items && |m.items| >= maxSize && m.recency != [] then Remove(m, {m.recency[0]}) else m
  }

  function Set<V>(m: Model<V>, key: Key, value: V, tags: set<Tag>, now: Time, ttl: int, maxSize: nat): Model<V> {
    var room := Evict(Live(m, now), key, maxSize);
    Model(room.items[key := Item(value, tags, now + ttl)], Touch(room.recency, key))
  }

  function Delete<V>(m: Model<V>, key: Key, now: Time): Model<V> {
    Remove(Live(m, now), {key})
  }

  function TaggedKeys<V>(m: Model<V>, tag: Tag): set<Key> {
    set k | k in m.items && tag in m.items[k].tags
  }

  function Invalidate<V>(m: Model<V>, tag: Tag, now: Time): Model<V> {
    var live := Live(m, now);
    Remove(live, TaggedKeys(live, tag))
  }

  // ---------- facts about the order of use ----------

  lemma {:induction false} WithoutDistinct(keys: seq<Key>, gone: set<Key>)
    requires Distinct(keys)
    ensures Distinct(Without(keys, gone))
  {
    if keys != [] {
      assert Distinct(keys[1..]);
      WithoutDistinct(keys[1..], gone);
      assert forall i :: 0 <= i < |keys| - 1 ==> keys[1..][i] == keys[i + 1];
    }
  }

  lemma {:induction false} WithoutTwice(keys: seq<Key>, a: set<Key>, b: set<Key>)
    ensures Without(Without(keys, a), b) == Without(keys, a + b)
  {
    if keys != [] {
      WithoutTwice(keys[1..], a, b);
      if keys[0] !in a {
        assert Without(keys, a)[1..] == Without(keys[1..], a);
      }
    }
  }

  lemma {:induction false} WithoutNothing(keys: seq<Key>, gone: set<Key>)
    requires forall k :: k in keys ==> k !in gone
    ensures Without(keys, gone) == keys
  {
    if keys != [] {
      WithoutNothing(keys[1..], gone);
    }
  }

  lemma RemoveKeepsWellFormed<V>(m: Model<V>, gone: set<Key>, maxSize: nat)
    requires WellFormed(m, maxSize)
    ensures WellFormed(Remove(m, gone), maxSize)
  {
    WithoutDistinct(m.recency, gone);
    assert (m.items - gone).Keys <= m.items.Keys;
    SubsetSize((m.items - gone).Keys, m.items.Keys);
  }

  // ---------- any sequence of operations ----------

  datatype Op<V> =
    | GetOp(key: Key)
    | SetOp(key: Key, value: V, tags: set<Tag>)
    | DeleteOp(key: Key)
    | InvalidateOp(tag: Tag)
    | ClearOp

  datatype At<V> = At(now: Time, op: Op<V>)

  function Apply<V>(m: Model<V>, at: At<V>, ttl: int, maxSize: nat): Model<V> {
    match at.op
    case GetOp(key) => Get(m, key, at.now).0
    case SetOp(key, value, tags) => Set(m, key, value, tags, at.now, ttl, maxSize)
    case DeleteOp(key) => Delete(m, key, at.now)
    case InvalidateOp(tag) => Invalidate(m, tag, at.now)
    case ClearOp => Model(map[], [])
  }

  function Run<V>(ops: seq<At<V>>, ttl: int, maxSize: nat): Model<V> {
    if ops == [] then Model(map[], [])
    else Apply(Run(ops[..|ops| - 1], ttl, maxSize), ops[|ops| - 1], ttl, maxSize)
  }

  /** The last operation that set the key, if any. */
  function LatestSet<V>(ops: seq<At<V>>, key: Key): Option<At<V>> {
    if ops == [] then None
    else if ops[|ops| - 1].op.SetOp? && ops[|ops| - 1].op.key == key then Some(ops[|ops| - 1])
    else LatestSet(ops[..|ops| - 1], key)
  }

  lemma SetKeepsWellFormed<V>(m: Model<V>, key: Key, value: V, tags: set<Tag>, now: Time, ttl: int, maxSize: nat)
    requires WellFormed(m, maxSize) && maxSize >= 1
    ensures WellFormed(Set(m, key, value, tags, now, ttl, maxSize), maxSize)
  {
    var live := Live(m, now);
    RemoveKeepsWellFormed(m, ExpiredKeys(m, now), maxSize);
    var room := Evict(live, key, maxSize);
    EvictMakesRoom(live, key, maxSize);
    StoreKeepsWellFormed(room, key, Item(value, tags, now + ttl), maxSize);
  }

  lemma StoreKeepsWellFormed<V>(room: Model<V>, key: Key, item: Item<V>, maxSize: nat)
    requires WellFormed(room, maxSize) && (key in room.items || |room.items| < maxSize)
    ensures WellFormed(Model(room.items[key := item], Touch(room.recency, key)), maxSize)
  {
    WithoutDistinct(room.recency, {key});
    var next := room.items[key := item];
    assert next.Keys == room.items.Keys + {key};
    assert |next| == |next.Keys| && |room.items| == |room.items.Keys|;
  }

  lemma EvictMakesRoom<V>(m: Model<V>, key: Key, maxSize: nat)
    requires WellFormed(m, maxSize) && maxSize >= 1
    ensures var room := Evict(m, key, maxSize); WellFormed(room, maxSize) && (key in room.items || |room.items| < maxSize)
  {
    if key !in m.items && |m.items| >= maxSize {
      assert m.items != map[];
      var some :| some in m.items;
      assert some in m.recency;
      var first := m.recency[0];
      RemoveKeepsWellFormed(m, {first}, maxSize);
      assert (m.items - {first}).Keys == m.items.Keys - {first};
      assert |m.items - {first}| == |(m.items - {first}).Keys|;
    }
  }

  lemma GetKeepsWellFormed<V>(m: Model<V>, key: Key, now: Time, maxSize: nat)
    requires WellFormed(m, maxSize)
    ensures WellFormed(Get(m, key, now).0, maxSize)
  {
    RemoveKeepsWellFormed(m, ExpiredKeys(m, now), maxSize);
    WithoutDistinct(Live(m, now).recency, {key});
  }

  lemma {:induction false} WellFormedAlways<V>(ops: seq<At<V>>, ttl: int, maxSize: nat)
    requires maxSize >= 1
    ensures WellFormed(Run(ops, ttl, maxSize), maxSize)
    decreases |ops|
  {
    if ops != [] {
      WellFormedAlways(ops[..|ops| - 1], ttl, maxSize);
      ApplyKeepsWellFormed(Run(ops[..|ops| - 1], ttl, maxSize), ops[|ops| - 1], ttl, maxSize);
    }
  }

  /** Over any sequence of operations the size stays within the bound, and the order of use lists exactly the keys present. */
  lemma {:induction false} SizeStaysBounded<V>(ops: seq<At<V>>, ttl: int, maxSize: nat, key: Key)
    requires maxSize >= 1
    ensures |Run(ops, ttl, maxSize).items| <= maxSize
    ensures key in Run(ops, ttl, maxSize).recency <==> key in Run(ops, ttl, maxSize).items
  {
    WellFormedAlways(ops, ttl, maxSize);
  }

  lemma ApplyKeepsWellFormed<V>(m: Model<V>, at: At<V>, ttl: int, maxSize: nat)
    requires WellFormed(m, maxSize) && maxSize >= 1
    ensures WellFormed(Apply(m, at, ttl, maxSize), maxSize)
  {
    match at.op
    case GetOp(key) => GetKeepsWellFormed(m, key, at.now, maxSize);
    case SetOp(key, value, tags) => SetKeepsWellFormed(m, key, value, tags, at.now, ttl, maxSize);
    case DeleteOp(key) => RemovesKeepWellFormed(m, ExpiredKeys(m, at.now), {key}, maxSize);
    case InvalidateOp(tag) => RemovesKeepWellFormed(m, ExpiredKeys(m, at.now), TaggedKeys(Live(m, at.now), tag), maxSize);
    case ClearOp =>
  }

  lemma RemovesKeepWellFormed<V>(m: Model<V>, a: set<Key>, b: set<Key>, maxSize: nat)
    requires WellFormed(m, maxSize)
    ensures WellFormed(Remove(Remove(m, a), b), maxSize)
  {
    RemoveKeepsWellFormed(m, a, maxSize);
    RemoveKeepsWellFormed(Remove(m, a), b, maxSize);
  }

  /** Whatever a key holds comes whole from the latest operation that set it: value, tags and expiry. */
  lemma {:induction false} ItemsComeFromLatestSet<V>(ops: seq<At<V>>, ttl: int, maxSize: nat, key: Key)
    requires key in Run(ops, ttl, maxSize).items
    ensures LatestSet(ops, key).Some?
    ensures var latest := LatestSet(ops, key).value;
      latest.op.SetOp? && Run(ops, ttl, maxSize).items[key] == Item(latest.op.value, latest.op.tags, latest.now + ttl)
    decreases |ops|
  {
    if ops != [] {
      var m := Run(ops[..|ops| - 1], ttl, maxSize);
      if !(ops[|ops| - 1].op.SetOp? && ops[|ops| - 1].op.key == key) {
        assert key in m.items && m.items[key] == Run(ops, ttl, maxSize).items[key];
        ItemsComeFromLatestSet(ops[..|ops| - 1], ttl, maxSize, key);
      }
    }
  }

  /** After any history, invalidating a tag removes exactly the live keys whose latest set carried it. */
  lemma {:induction false} InvalidationIsExact<V>(ops: seq<At<V>>, ttl: int, maxSize: nat, tag: Tag, now: Time, key: Key)
    ensures var before, after := Run(ops, ttl, maxSize), Run(ops + [At(now, InvalidateOp(tag))], ttl, maxSize);
      key in after.items <==>
        key in before.items && LatestSet(ops, key).Some? && LatestSet(ops, key).value.op.SetOp? &&
        now < LatestSet(ops, key).value.now + ttl && tag !in LatestSet(ops, key).value.op.tags
    ensures var before, after := Run(ops, ttl, maxSize), Run(ops + [At(now, InvalidateOp(tag))], ttl, maxSize);
      key in after.items ==> after.items[key] == before.items[key]
  {
    RunSnoc(ops, At(now, InvalidateOp(tag)), ttl, maxSize);
    if key in Run(ops, ttl, maxSize).items {
      ItemsComeFromLatestSet(ops, ttl, maxSize, key);
    }
  }

  lemma RunSnoc<V>(ops: seq<At<V>>, at: At<V>, ttl: int, maxSize: nat)
    ensures Run(ops + [at], ttl, maxSize) == Apply(Run(ops, ttl, maxSize), at, ttl, maxSize)
  {
    assert (ops + [at])[..|ops + [at]| - 1] == ops;
  }

  /** A clear leaves nothing. */
  lemma ClearedIsEmpty<V>(ops: seq<At<V>>, now: Time, ttl: int, maxSize: nat)
    ensures Run(ops + [At(now, ClearOp)], ttl, maxSize) == Model(map[], [])
  {
    RunSnoc(ops, At(now, ClearOp), ttl, maxSize);
  }

  // ---------- what a get finds, and what goes ----------

  /** After these operations the key holds what its latest set put there, and that has not expired. */
  ghost predicate Holds<V>(ops: seq<At<V>>, ttl: int, maxSize: nat, key: Key, now: Time) {
    key in Run(ops, ttl, maxSize).items && LatestSet(ops, key).Some? && now < LatestSet(ops, key).value.now + ttl
  }

  /** After any history a get returns the value of the latest set, if the key still holds it, and otherwise nothing; only expired keys go. */
  lemma {:induction false} GetIsExact<V>(ops: seq<At<V>>, ttl: int, maxSize: nat, key: Key, now: Time, other: Key)
    ensures var found := Get(Run(ops, ttl, maxSize), key, now).1;
      if Holds(ops, ttl, maxSize, key, now) then
        LatestSet(ops, key).value.op.SetOp? && found == Some(LatestSet(ops, key).value.op.value)
      else found.None?
    ensures var before, after := Run(ops, ttl, maxSize), Run(ops + [At(now, GetOp(key))], ttl, maxSize);
      (other in after.items <==> Holds(ops, ttl, maxSize, other, now)) && (other in after.items ==> after.items[other] == before.items[other])
  {
    RunSnoc(ops, At(now, GetOp(key)), ttl, maxSize);
    if key in Run(ops, ttl, maxSize).items {
      ItemsComeFromLatestSet(ops, ttl, maxSize, key);
    }
    if other in Run(ops, ttl, maxSize).items {
      ItemsComeFromLatestSet(ops, ttl, maxSize, other);
    }
  }

  /** After any history a delete removes its key, and besides only what has expired. */
  lemma {:induction false} DeleteIsExact<V>(ops: seq<At<V>>, ttl: int, maxSize: nat, key: Key, now: Time, other: Key)
    ensures var before, after := Run(ops, ttl, maxSize), Run(ops + [At(now, DeleteOp(key))], ttl, maxSize);
      (other in after.items <==> other != key && Holds(ops, ttl, maxSize, other, now)) &&
      (other in after.items ==> after.items[other] == before.items[other])
  {
    RunSnoc(ops, At(now, DeleteOp(key)), ttl, maxSize);
    if other in Run(ops, ttl, maxSize).items {
      ItemsComeFromLatestSet(ops, ttl, maxSize, other);
    }
  }

  // ---------- eviction ----------

  /** The operation sets the key, or gets it while it is there. */
  predicate Uses<V>(m: Model<V>, at: At<V>, key: Key) {
    (at.op.SetOp? && at.op.key == key) || (at.op.GetOp? && at.op.key == key && key in m.items && at.now < m.items[key].expires)
  }

  /** The number of the last operation that used the key; 0 if there is none. */
  function LastUse<V>(ops: seq<At<V>>, ttl: int, maxSize: nat, key: Key): (n: nat)
    ensures n <= |ops|
  {
    if ops == [] then 0
    else if Uses(Run(ops[..|ops| - 1], ttl, maxSize), ops[|ops| - 1], key) then |ops|
    else LastUse(ops[..|ops| - 1], ttl, maxSize, key)
  }

  type Ages = Key -> nat

  ghost predicate Ascending(keys: seq<Key>, use: Ages) {
    forall i, j :: 0 <= i < j < |keys| ==> use(keys[i]) < use(keys[j])
  }

  lemma AfterTheFirst(keys: seq<Key>, use: Ages)
    requires Ascending(keys, use) && keys != []
    ensures Ascending(keys[1..], use) && forall k :: k in keys[1..] ==> use(keys[0]) < use(k)
  {
    assert forall i :: 0 <= i < |keys| - 1 ==> keys[1..][i] == keys[i + 1];
  }

  lemma {:induction false} WithoutAscending(keys: seq<Key>, gone: set<Key>, use: Ages)
    requires Ascending(keys, use)
    ensures Ascending(Without(keys, gone), use)
  {
    if keys != [] {
      AfterTheFirst(keys, use);
      WithoutAscending(keys[1..], gone, use);
      var kept := Without(keys[1..], gone);
      assert forall i :: 0 <= i < |kept| ==> kept[i] in kept;
    }
  }

  /** The same keys, of which none was used again. */
  lemma SameAscending(keys: seq<Key>, use: Ages, next: Ages)
    requires Ascending(keys, use) && forall k :: k in keys ==> next(k) == use(k)
    ensures Ascending(keys, next)
  {
    assert forall i :: 0 <= i < |keys| ==> keys[i] in keys;
  }

  lemma TouchAscending(keys: seq<Key>, key: Key, use: Ages, next: Ages)
    requires Ascending(keys, use) && forall k :: k in keys && k != key ==> next(k) == use(k) < next(key)
    ensures Ascending(Touch(keys, key), next)
  {
    var rest := Without(keys, {key});
    WithoutAscending(keys, {key}, use);
    SameAscending(rest, use, next);
    assert forall i :: 0 <= i < |rest| ==> rest[i] in rest;
  }

  ghost function UseOf<V>(ops: seq<At<V>>, ttl: int, maxSize: nat): Ages {
    k => LastUse(ops, ttl, maxSize, k)
  }

  /** The order of use is the order of the last uses. */
  lemma {:induction false} RecencyIsLastUse<V>(ops: seq<At<V>>, ttl: int, maxSize: nat)
    ensures Ascending(Run(ops, ttl, maxSize).recency, UseOf(ops, ttl, maxSize))
    decreases |ops|
  {
    if ops != [] {
      var shorter, at := ops[..|ops| - 1], ops[|ops| - 1];
      RecencyIsLastUse(shorter, ttl, maxSize);
      RecencyStep(Run(shorter, ttl, maxSize), at, ttl, maxSize, UseOf(shorter, ttl, maxSize), UseOf(ops, ttl, maxSize), |ops|);
    }
  }

  lemma RecencyStep<V>(m: Model<V>, at: At<V>, ttl: int, maxSize: nat, use: Ages, next: Ages, n: nat)
    requires Ascending(m.recency, use)
    requires forall k :: use(k) < n && next(k) == if Uses(m, at, k) then n else use(k)
    ensures Ascending(Apply(m, at, ttl, maxSize).recency, next)
  {
    var live := Live(m, at.now);
    WithoutAscending(m.recency, ExpiredKeys(m, at.now), use);
    match at.op
    case GetOp(key) => GetAscending(live, key, use, next, n);
    case SetOp(key, _, _) => SetAscending(live, key, maxSize, use, next, n);
    case DeleteOp(key) =>
      WithoutAscending(live.recency, {key}, use);
      SameAscending(Without(live.recency, {key}), use, next);
    case InvalidateOp(tag) =>
      WithoutAscending(live.recency, TaggedKeys(live, tag), use);
      SameAscending(Without(live.recency, TaggedKeys(live, tag)), use, next);
    case ClearOp =>
  }

  lemma GetAscending<V>(live: Model<V>, key: Key, use: Ages, next: Ages, n: nat)
    requires Ascending(live.recency, use)
    requires forall k :: use(k) < n && next(k) == if k == key && key in live.items then n else use(k)
    ensures Ascending(if key in live.items then Touch(live.recency, key) else live.recency, next)
  {
    if key in live.items {
      TouchAscending(live.recency, key, use, next);
    } else {
      SameAscending(live.recency, use, next);
    }
  }

  lemma SetAscending<V>(live: Model<V>, key: Key, maxSize: nat, use: Ages, next: Ages, n: nat)
    requires Ascending(live.recency, use) && forall k :: use(k) < n && next(k) == if k == key then n else use(k)
    ensures Ascending(Touch(Evict(live, key, maxSize).recency, key), next)
  {
    if live.recency != [] {
      WithoutAscending(live.recency, {live.recency[0]}, use);
    }
    TouchAscending(Evict(live, key, maxSize).recency, key, use, next);
  }

  /** The keys that have not expired. */
  ghost function Held<V>(ops: seq<At<V>>, ttl: int, maxSize: nat, now: Time): set<Key> {
    set k | k in Run(ops, ttl, maxSize).items && Holds(ops, ttl, maxSize, k, now)
  }

  /** After any history a set stores its key whole, and leaves the keys that stay as they were. */
  lemma SetStoresWhole<V>(ops: seq<At<V>>, ttl: int, maxSize: nat, key: Key, value: V, tags: set<Tag>, now: Time, other: Key)
    ensures var before, after := Run(ops, ttl, maxSize), Run(ops + [At(now, SetOp(key, value, tags))], ttl, maxSize);
      key in after.items && after.items[key] == Item(value, tags, now + ttl) &&
      (other != key && other in after.items ==> other in before.items && after.items[other] == before.items[other])
  {
    RunSnoc(ops, At(now, SetOp(key, value, tags)), ttl, maxSize);
  }

  /**
   If the key is new and the cache is full, the one other key that goes is the least recently
   used of those that have not expired; if not, none goes.
   */
  lemma {:induction false} SetEvictsLeastRecentlyUsed<V>(ops: seq<At<V>>, ttl: int, maxSize: nat, key: Key, value: V, tags: set<Tag>, now: Time, other: Key)
    requires maxSize >= 1
    ensures var held, after := Held(ops, ttl, maxSize, now), Run(ops + [At(now, SetOp(key, value, tags))], ttl, maxSize);
      var leastUsed := forall k :: k in held ==> LastUse(ops, ttl, maxSize, other) <= LastUse(ops, ttl, maxSize, k);
      other != key ==> (other in after.items <==> other in held && !(key !in held && |held| == maxSize && leastUsed))
  {
    var live := Live(Run(ops, ttl, maxSize), now);
    RunSnoc(ops, At(now, SetOp(key, value, tags)), ttl, maxSize);
    HeldIsLive(ops, ttl, maxSize, now);
    RecencyIsLastUse(ops, ttl, maxSize);
    WithoutAscending(Run(ops, ttl, maxSize).recency, ExpiredKeys(Run(ops, ttl, maxSize), now), UseOf(ops, ttl, maxSize));
    WellFormedAlways(ops, ttl, maxSize);
    RemoveKeepsWellFormed(Run(ops, ttl, maxSize), ExpiredKeys(Run(ops, ttl, maxSize), now), maxSize);
    EvictIsExact(live, key, maxSize, UseOf(ops, ttl, maxSize), other);
  }

  lemma {:induction false} HeldIsLive<V>(ops: seq<At<V>>, ttl: int, maxSize: nat, now: Time)
    ensures Held(ops, ttl, maxSize, now) == Live(Run(ops, ttl, maxSize), now).items.Keys
  {
    forall k | k in Run(ops, ttl, maxSize).items ensures Holds(ops, ttl, maxSize, k, now) <==> k in Live(Run(ops, ttl, maxSize), now).items {
      ItemsComeFromLatestSet(ops, ttl, maxSize, k);
    }
  }

  lemma EvictIsExact<V>(live: Model<V>, key: Key, maxSize: nat, use: Ages, other: Key)
    requires WellFormed(live, maxSize) && Ascending(live.recency, use) && maxSize >= 1
    ensures var held, room := live.items.Keys, Evict(live, key, maxSize);
      (other in room.items <==> other in held && !(key !in held && |held| == maxSize && forall k :: k in held ==> use(other) <= use(k)))
  {
    assert |live.items| == |live.items.Keys|;
    if |live.items| == maxSize {
      assert live.items != map[];
      var some :| some in live.items;
      assert some in live.recency;
      FirstIsLeast(live.recency, use);
      assert live.recency[0] in live.recency;
    }
  }

  lemma FirstIsLeast(keys: seq<Key>, use: Ages)
    requires Ascending(keys, use)
    ensures forall k :: k in keys ==> use(keys[0]) <= use(k) && (use(k) <= use(keys[0]) ==> k == keys[0])
  {
    forall k | k in keys ensures use(keys[0]) <= use(k) && (use(k) <= use(keys[0]) ==> k == keys[0]) {
      var i :| 0 <= i < |keys| && keys[i] == k;
    }
  }
}

module TaggedMemory {
  import opened Wrappers
  import opened TaggedModel

  datatype Slot<V> = Slot(value: V, expires: Time)

  datatype ValueError = NoneIsAMiss

  /** The two indexes say the same, and neither keeps empty sets. */
  ghost predicate Inverse(keyTags: map<Key, set<Tag>>, tagKeys: map<Tag, set<Key>>) {
    && (forall k, t :: (k in keyTags && t in keyTags[k]) <==> (t in tagKeys && k in tagKeys[t]))
    && (forall k :: k in keyTags ==> keyTags[k] != {})
    && (forall t :: t in tagKeys ==> tagKeys[t] != {})
  }

  /** `tag_keys.get(tag, set())`. */
  function KeysOf(tagKeys: map<Tag, set<Key>>, tag: Tag): set<Key> {
    if tag in tagKeys then tagKeys[tag] else {}
  }

  /** The index after the key was added under some tags. */
  ghost predicate Added(tagKeys: map<Tag, set<Key>>, next: map<Tag, set<Key>>, tags: set<Tag>, key: Key) {
    && (forall t :: KeysOf(next, t) == KeysOf(tagKeys, t) + if t in tags then {key} else {})
    && (forall t :: t in next ==> next[t] != {})
  }

  lemma AddedMore(tagKeys: map<Tag, set<Key>>, next: map<Tag, set<Key>>, tags: set<Tag>, key: Key, tag: Tag)
    requires Added(tagKeys, next, tags, key)
    ensures Added(tagKeys, next[tag := KeysOf(next, tag) + {key}], tags + {tag}, key)
  {
    var more := next[tag := KeysOf(next, tag) + {key}];
    forall t ensures KeysOf(more, t) == KeysOf(tagKeys, t) + if t in tags + {tag} then {key} else {} {
      assert t != tag ==> KeysOf(more, t) == KeysOf(next, t);
    }
  }

  lemma BindingsAdded(keyTags: map<Key, set<Tag>>, tagKeys: map<Tag, set<Key>>, key: Key, tags: set<Tag>, next: map<Tag, set<Key>>)
    requires Inverse(keyTags, tagKeys) && key !in keyTags && tags != {} && Added(tagKeys, next, tags, key)
    ensures Inverse(keyTags[key := tags], next)
  {
    var nextTags := keyTags[key := tags];
    forall k, t ensures (k in nextTags && t in nextTags[k]) <==> (t in next && k in next[t]) {
      assert (k in keyTags && t in keyTags[k]) <==> k in KeysOf(tagKeys, t);
      assert (t in next && k in next[t]) <==> k in KeysOf(next, t);
    }
  }

  ghost function TagsOf(keyTags: map<Key, set<Tag>>, key: Key): set<Tag> {
    if key in keyTags then keyTags[key] else {}
  }

  /** What the fields stand for. */
  ghost function ModelOf<V>(slots: map<Key, Slot<V>>, recency: seq<Key>, keyTags: map<Key, set<Tag>>): Model<V> {
    Model(map k | k in slots :: Item(slots[k].value, TagsOf(keyTags, k), slots[k].expires), recency)
  }

  lemma RemovedModel<V>(slots: map<Key, Slot<V>>, recency: seq<Key>, keyTags: map<Key, set<Tag>>, gone: set<Key>)
    ensures ModelOf(slots - gone, Without(recency, gone), keyTags - gone) == Remove(ModelOf(slots, recency, keyTags), gone)
  {
    assert ModelOf(slots - gone, Without(recency, gone), keyTags - gone).items == ModelOf(slots, recency, keyTags).items - gone;
  }

  lemma StoredModel<V>(slots: map<Key, Slot<V>>, recency: seq<Key>, keyTags: map<Key, set<Tag>>,
                       key: Key, slot: Slot<V>, tags: set<Tag>, next: map<Key, set<Tag>>)
    requires next == if tags == {} then keyTags - {key} else (keyTags - {key})[key := tags]
    ensures ModelOf(slots[key := slot], Touch(recency, key), next) ==
      Model(ModelOf(slots, recency, keyTags).items[key := Item(slot.value, tags, slot.expires)], Touch(recency, key))
  {
    assert ModelOf(slots[key := slot], Touch(recency, key), next).items ==
      ModelOf(slots, recency, keyTags).items[key := Item(slot.value, tags, slot.expires)];
  }

  /** The tag index lists exactly the keys that carry the tag. */
  lemma IndexedKeys<V>(slots: map<Key, Slot<V>>, recency: seq<Key>, keyTags: map<Key, set<Tag>>, tagKeys: map<Tag, set<Key>>, tag: Tag)
    requires Inverse(keyTags, tagKeys) && keyTags.Keys <= slots.Keys
    ensures TaggedKeys(ModelOf(slots, recency, keyTags), tag) == KeysOf(tagKeys, tag)
  {
    var m := ModelOf(slots, recency, keyTags);
    assert forall k :: k in m.items ==> m.items[k].tags == TagsOf(keyTags, k);
    assert forall k :: k in keyTags ==> k in slots;
  }

  class MemoryTaggedCache<V> {
    const maxSize: nat
    const ttl: int
    var slots: map<Key, Slot<V>>       // the TTL cache: values with their expiry ...
    var recency: seq<Key>              // ... and its keys in order of last use
    var keyTags: map<Key, set<Tag>>
    var tagKeys: map<Tag, set<Key>>

    ghost function Contents(): Model<V>
      reads this
    {
      ModelOf(slots, recency, keyTags)
    }

    ghost predicate Valid()
      reads this
    {
      && maxSize >= 1
      && WellFormed(Contents(), maxSize)
      && keyTags.Keys <= slots.Keys
      && Inverse(keyTags, tagKeys)
    }

    constructor (maxSize: nat, ttl: int)
      requires maxSize > 0 && ttl > 0
      ensures Valid() && Contents() == Model(map[], [])
      ensures this.maxSize == maxSize && this.ttl == ttl
    {
      this.maxSize := maxSize;
      this.ttl := ttl;
      slots, recency, keyTags, tagKeys := map[], [], map[], map[];
    }

    method RemoveTagBindings(key: Key)
      requires Inverse(keyTags, tagKeys)
      modifies this`keyTags, this`tagKeys
      ensures Inverse(keyTags, tagKeys) && keyTags == old(keyTags) - {key}
    {
      var tags := if key in keyTags then keyTags[key] else {};
      keyTags := keyTags - {key};
      while tags != {}
        invariant keyTags == old(keyTags) - {key}
        invariant forall t :: t in tags ==> t in tagKeys && key in tagKeys[t]
        invariant forall k, t :: (t in tagKeys && k in tagKeys[t]) <==> ((k in keyTags && t in keyTags[k]) || (k == key && t in tags))
        invariant forall t :: t in tagKeys ==> tagKeys[t] != {}
        decreases |tags|
      {
        var tag :| tag in tags;
        var keys := tagKeys[tag] - {key};
        tagKeys := if keys == {} then tagKeys - {tag} else tagKeys[tag := keys];
        tags := tags - {tag};
      }
    }

    method AddTagBindings(key: Key, tags: set<Tag>)
      requires Inverse(keyTags, tagKeys) && key !in keyTags && tags != {}
      modifies this`keyTags, this`tagKeys
      ensures Inverse(keyTags, tagKeys) && keyTags == old(keyTags)[key := tags]
    {
      keyTags := keyTags[key := tags];
      Index(key, tags);
      BindingsAdded(old(keyTags), old(tagKeys), key, tags, tagKeys);
    }

    /** `setdefault(tag, set()).add(key)` for every tag. */
    method Index(key: Key, tags: set<Tag>)
      requires forall t :: t in tagKeys ==> tagKeys[t] != {}
      modifies this`tagKeys
      ensures Added(old(tagKeys), tagKeys, tags, key)
    {
      var done: set<Tag> := {};
      while tags - done != {}
        invariant done <= tags && Added(old(tagKeys), tagKeys, done, key)
        decreases tags - done
      {
        var tag :| tag in tags - done;
        AddedMore(old(tagKeys), tagKeys, done, key, tag);
        tagKeys := tagKeys[tag := KeysOf(tagKeys, tag) + {key}];
        done := done + {tag};
      }
    }

    /** The body of the loops over keys: pop the value, then remove its bindings. */
    method DropOne(key: Key)
      requires Inverse(keyTags, tagKeys)
      modifies this
      ensures Inverse(keyTags, tagKeys) && keyTags == old(keyTags) - {key}
      ensures slots == old(slots) - {key} && recency == Without(old(recency), {key})
    {
      slots := slots - {key};
      recency := Without(recency, {key});
      RemoveTagBindings(key);
    }

    method Drop(keys: set<Key>)
      requires Inverse(keyTags, tagKeys)
      modifies this
      ensures Inverse(keyTags, tagKeys) && keyTags == old(keyTags) - keys
      ensures slots == old(slots) - keys && recency == Without(old(recency), keys)
    {
      var rest := keys;
      assert keys - rest == {};
      WithoutNothing(recency, keys - rest);
      while rest != {}
        invariant rest <= keys && Inverse(keyTags, tagKeys)
        invariant slots == old(slots) - (keys - rest) && recency == Without(old(recency), keys - rest)
        invariant keyTags == old(keyTags) - (keys - rest)
        decreases |rest|
      {
        var key :| key in rest;
        WithoutTwice(old(recency), keys - rest, {key});
        DropOne(key);
        assert keys - (rest - {key}) == (keys - rest) + {key};
        rest := rest - {key};
      }
      assert keys - rest == keys;
    }

    /** `_expire`: the TTL cache drops its expired keys, then their bindings go. */
    method Expire(now: Time)
      requires Valid()
      modifies this
      ensures Valid() && Contents() == Live(old(Contents()), now)
    {
      var gone := set k | k in slots && slots[k].expires <= now;
      assert gone == ExpiredKeys(Contents(), now);
      RemovedModel(slots, recency, keyTags, gone);
      RemoveKeepsWellFormed(Contents(), gone, maxSize);
      Drop(gone);
    }

    method Get(key: Key, now: Time) returns (value: Option<V>)
      requires Valid()
      modifies this
      ensures Valid() && (Contents(), value) == TaggedModel.Get(old(Contents()), key, now)
    {
      GetKeepsWellFormed(Contents(), key, now, maxSize);
      Expire(now);
      ghost var live := Contents();
      assert key in slots <==> key in live.items;
      if key in slots {
        recency := Touch(recency, key);
        assert Contents() == live.(recency := Touch(live.recency, key));
        return Some(slots[key].value);
      }
      return None;
    }

    /** `popitem` of the TTL cache when a new key finds it full. */
    method MakeRoom(key: Key)
      requires Valid()
      modifies this
      ensures Valid() && Contents() == Evict(old(Contents()), key, maxSize)
    {
      EvictMakesRoom(Contents(), key, maxSize);
      assert Contents().items.Keys == slots.Keys;
      assert |Contents().items| == |Contents().items.Keys| && |slots| == |slots.Keys|;
      if key !in slots && |slots| >= maxSize && recency != [] {
        RemovedModel(slots, recency, keyTags, {recency[0]});
        Drop({recency[0]});
      }
    }

    method Set(key: Key, value: Option<V>, tags: set<Tag>, now: Time) returns (result: Result<(), ValueError>)
      requires Valid()
      modifies this
      ensures Valid()
      ensures value.None? ==> result == Err(NoneIsAMiss) && Contents() == old(Contents())
      ensures value.Some? ==>
        (result == Ok(()) && Contents() == TaggedModel.Set(old(Contents()), key, value.value, tags, now, ttl, maxSize))
    {
      if value.None? {
        return Err(NoneIsAMiss);
      }
      Put(key, value.value, tags, now);
      return Ok(());
    }

    method Put(key: Key, value: V, tags: set<Tag>, now: Time)
      requires Valid()
      modifies this
      ensures Valid() && Contents() == TaggedModel.Set(old(Contents()), key, value, tags, now, ttl, maxSize)
    {
      ghost var next := TaggedModel.Set(Contents(), key, value, tags, now, ttl, maxSize);
      assert WellFormed(next, maxSize) by {
        SetKeepsWellFormed(Contents(), key, value, tags, now, ttl, maxSize);
      }
      ExpireAndMakeRoom(key, now);
      Store(key, Slot(value, now + ttl), tags);
      assert Contents() == next;
    }

    method ExpireAndMakeRoom(key: Key, now: Time)
      requires Valid()
      modifies this
      ensures Inverse(keyTags, tagKeys) && keyTags.Keys <= slots.Keys
      ensures Contents() == Evict(Live(old(Contents()), now), key, maxSize)
    {
      Expire(now);
      MakeRoom(key);
    }

    method Store(key: Key, slot: Slot<V>, tags: set<Tag>)
      requires Inverse(keyTags, tagKeys) && keyTags.Keys <= slots.Keys
      modifies this
      ensures Inverse(keyTags, tagKeys) && keyTags.Keys <= slots.Keys
      ensures Contents() == Model(old(Contents()).items[key := Item(slot.value, tags, slot.expires)], Touch(old(recency), key))
    {
      RemoveTagBindings(key);
      slots := slots[key := slot];
      recency := Touch(recency, key);
      if tags != {} {
        AddTagBindings(key, tags);
      }
      StoredModel(old(slots), old(recency), old(keyTags), key, slot, tags, keyTags);
    }

    method Delete(key: Key, now: Time)
      requires Valid()
      modifies this
      ensures Valid() && Contents() == TaggedModel.Delete(old(Contents()), key, now)
    {
      Expire(now);
      RemovedModel(slots, recency, keyTags, {key});
      RemoveKeepsWellFormed(Contents(), {key}, maxSize);
      Drop({key});
    }

    method InvalidateTag(tag: Tag, now: Time)
      requires Valid()
      modifies this
      ensures Valid() && Contents() == Invalidate(old(Contents()), tag, now)
    {
      Expire(now);
      var keys := KeysOf(tagKeys, tag);
      IndexedKeys(slots, recency, keyTags, tagKeys, tag);
      RemovedModel(slots, recency, keyTags, keys);
      RemoveKeepsWellFormed(Contents(), keys, maxSize);
      Drop(keys);
    }

    method Clear()
      requires Valid()
      modifies this
      ensures Valid() && Contents() == Model(map[], [])
    {
      slots, recency, keyTags, tagKeys := map[], [], map[], map[];
    }
  }
}
