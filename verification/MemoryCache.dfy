// The byte-bounded, least-recently-used cache in memory (internal/scout/cache.go).
module MemoryCache {
  import opened Common
  import opened Recency

  datatype Entry = Entry(value: string, expires: Time, size: nat)

  /** What the cache holds: its keys, most recently used first, and their entries. */
  datatype Lru = Lru(order: seq<string>, items: map<string, Entry>)

  const EMPTY := Lru([], map[])

  ghost predicate Matches(c: Lru) {
    Distinct(c.order) && (forall k :: k in c.order <==> k in c.items)
  }

  predicate Known(order: seq<string>, items: map<string, Entry>) {
    forall i :: 0 <= i < |order| ==> order[i] in items
  }

  /** The bytes of the n most recently used. */
  function Weight(order: seq<string>, items: map<string, Entry>, n: nat): nat
    requires n <= |order| && Known(order, items)
  {
    if n == 0 then 0 else Weight(order, items, n - 1) + items[order[n - 1]].size
  }

  function Bytes(c: Lru): nat
    requires Known(c.order, c.items)
  {
    Weight(c.order, c.items, |c.order|)
  }

  /** How many of the most recently used stay when the least recently used leave one by one until the rest fit. */
  function Fit(order: seq<string>, items: map<string, Entry>, n: nat, max: int): (m: nat)
    requires n <= |order| && Known(order, items)
    ensures m <= n
  {
    if n == 0 || Weight(order, items, n) <= max then n else Fit(order, items, n - 1, max)
  }

  function First(c: Lru, n: nat): Lru
    requires n <= |c.order|
  {
    Lru(c.order[..n], map k | k in c.items && k in c.order[..n] :: c.items[k])
  }

  function Trim(c: Lru, max: int): Lru
    requires Known(c.order, c.items)
  {
    First(c, Fit(c.order, c.items, |c.order|, max))
  }

  function Dropped(c: Lru, key: string): Lru {
    Lru(Without(c.order, |c.order|, key), c.items - {key})
  }

  function Got(c: Lru, key: string, now: Time): (Lru, Option<string>) {
    if key !in c.items then (c, None)
    else if now > c.items[key].expires then (Dropped(c, key), None)
    else (c.(order := Touched(c.order, key)), Some(c.items[key].value))
  }

  function Added(c: Lru, key: string, value: string, expires: Time): Lru {
    Lru(Touched(c.order, key), c.items[key := Entry(value, expires, |key| + |value|)])
  }

  lemma {:induction false} AddedMatches(c: Lru, key: string, value: string, expires: Time)
    requires Matches(c)
    ensures Matches(Added(c, key, value, expires))
  {
    TouchedHolds(c.order, key);
  }

  lemma {:induction false} TouchedMatches(c: Lru, key: string)
    requires Matches(c)
    ensures key in c.items ==> Matches(c.(order := Touched(c.order, key)))
  {
    TouchedHolds(c.order, key);
  }

  lemma {:induction false} DroppedMatches(c: Lru, key: string)
    requires Matches(c)
    ensures Matches(Dropped(c, key))
  {
    WithoutHolds(c.order, |c.order|, key);
    assert c.order[..|c.order|] == c.order;
  }

  lemma {:induction false} FirstMatches(c: Lru, n: nat)
    requires Matches(c) && n <= |c.order|
    ensures Matches(First(c, n)) && Bytes(First(c, n)) == Weight(c.order, c.items, n)
  {
    DistinctPrefix(c.order, n);
    WeightSame(c.order, c.items, First(c, n).order, First(c, n).items, n);
  }

  ghost function Stored(c: Lru, key: string, value: string, expires: Time, max: int): (after: Lru)
    requires Matches(c)
    ensures Matches(after)
  {
    AddedMatches(c, key, value, expires);
    var added := Added(c, key, value, expires);
    FirstMatches(added, Fit(added.order, added.items, |added.order|, max));
    Trim(added, max)
  }

  lemma {:induction false} LastDropped(c: Lru, n: nat)
    requires Matches(c) && 0 < n <= |c.order|
    ensures Dropped(First(c, n), c.order[n - 1]) == First(c, n - 1)
  {
    var f := First(c, n);
    DistinctPrefix(c.order, n);
    WithoutAt(f.order, n, n - 1);
    NotBefore(c.order, n - 1);
    assert c.order[..n] == c.order[..n - 1] + [c.order[n - 1]];
    assert Dropped(f, c.order[n - 1]).order == c.order[..n - 1];
    assert c.order[n - 1] !in c.order[..n - 1];
  }

  lemma {:induction false} WeightSame(order: seq<string>, items: map<string, Entry>, order': seq<string>,
                                      items': map<string, Entry>, n: nat)
    requires n <= |order| && n <= |order'| && Known(order, items) && Known(order', items')
    requires forall i :: 0 <= i < n ==> order[i] == order'[i] && items[order[i]] == items'[order'[i]]
    ensures Weight(order, items, n) == Weight(order', items', n)
  {
    if n > 0 {
      WeightSame(order, items, order', items', n - 1);
    }
  }

  /** Bytes lost with a key. */
  lemma {:induction false} WeightWithout(c: Lru, at: nat, n: nat)
    requires Matches(c) && at < n <= |c.order|
    ensures var rest := c.order[..at] + c.order[at + 1..n];
            Known(rest, c.items)
            && Weight(rest, c.items, n - 1) + c.items[c.order[at]].size == Weight(c.order, c.items, n)
  {
    var rest := c.order[..at] + c.order[at + 1..n];
    if at == n - 1 {
      assert rest == c.order[..n - 1];
      WeightPrefix(c, n - 1);
    } else {
      var shorter := c.order[..at] + c.order[at + 1..n - 1];
      WeightWithout(c, at, n - 1);
      OneFurther(c.order, at, n);
      assert c.order[n - 1] in c.order;
      WeightPlus(shorter, c.items, c.order[n - 1]);
    }
  }

  lemma {:induction false} OneFurther(order: seq<string>, at: nat, n: nat)
    requires at + 1 < n <= |order|
    ensures order[..at] + order[at + 1..n] == order[..at] + order[at + 1..n - 1] + [order[n - 1]]
  {
  }

  lemma {:induction false} WeightPrefix(c: Lru, n: nat)
    requires Matches(c) && n <= |c.order|
    ensures Known(c.order[..n], c.items) && Weight(c.order[..n], c.items, n) == Weight(c.order, c.items, n)
  {
    forall i | 0 <= i < n ensures c.order[..n][i] in c.items {
      assert c.order[i] in c.order;
    }
    WeightSame(c.order[..n], c.items, c.order, c.items, n);
  }

  lemma {:induction false} WeightPlus(order: seq<string>, items: map<string, Entry>, key: string)
    requires Known(order, items) && key in items
    ensures Known(order + [key], items)
            && Weight(order + [key], items, |order| + 1) == Weight(order, items, |order|) + items[key].size
  {
    WeightSame(order + [key], items, order, items, |order|);
  }

  lemma {:induction false} WeightElsewhere(order: seq<string>, items: map<string, Entry>, key: string)
    requires Known(order, items) && key !in order
    ensures Known(order, items - {key}) && Weight(order, items - {key}, |order|) == Weight(order, items, |order|)
  {
    WeightSame(order, items, order, items - {key}, |order|);
  }

  lemma {:induction false} DroppedBytes(c: Lru, key: string)
    requires Matches(c) && key in c.items
    ensures Matches(Dropped(c, key)) && Bytes(Dropped(c, key)) + c.items[key].size == Bytes(c)
  {
    var at :| 0 <= at < |c.order| && c.order[at] == key;
    DroppedMatches(c, key);
    DroppedWeight(c, at);
    WeightElsewhere(Dropped(c, key).order, c.items, key);
  }

  lemma {:induction false} DroppedWeight(c: Lru, at: nat)
    requires Matches(c) && at < |c.order|
    ensures var rest := Without(c.order, |c.order|, c.order[at]);
            Known(rest, c.items) && c.order[at] in c.items
            && Weight(rest, c.items, |rest|) + c.items[c.order[at]].size == Bytes(c)
  {
    assert c.order[at] in c.order;
    WithoutAt(c.order, |c.order|, at);
    WeightWithout(c, at, |c.order|);
  }

  lemma {:induction false} WeightShift(order: seq<string>, items: map<string, Entry>, key: string, n: nat)
    requires n <= |order| && Known(order, items) && key in items
    ensures Known([key] + order, items)
    ensures Weight([key] + order, items, n + 1) == items[key].size + Weight(order, items, n)
  {
    if n > 0 {
      WeightShift(order, items, key, n - 1);
      assert ([key] + order)[n] == order[n - 1];
    } else {
      assert Weight([key] + order, items, 0) == 0;
    }
  }

  /** Bytes after an entry is put in front, whether or not the key was there. */
  lemma {:induction false} AddedBytes(c: Lru, key: string, value: string, expires: Time)
    requires Matches(c)
    ensures var after := Added(c, key, value, expires);
            Matches(after)
            && Bytes(after) + (if key in c.items then c.items[key].size else 0) == Bytes(c) + |key| + |value|
  {
    AddedMatches(c, key, value, expires);
    var after := Added(c, key, value, expires);
    WithoutHolds(c.order, |c.order|, key);
    assert c.order[..|c.order|] == c.order;
    var rest := Without(c.order, |c.order|, key);
    WeightShift(rest, after.items, key, |rest|);
    WeightSame(rest, after.items, rest, c.items, |rest|);
    if key in c.items {
      DroppedBytes(c, key);
      WeightSame(rest, c.items, rest, c.items - {key}, |rest|);
    } else {
      WithoutAbsent(c.order, |c.order|, key);
    }
  }

  lemma {:induction false} TouchedBytes(c: Lru, key: string)
    requires Matches(c) && key in c.items
    ensures var after := c.(order := Touched(c.order, key)); Matches(after) && Bytes(after) == Bytes(c)
  {
    TouchedHolds(c.order, key);
    WithoutHolds(c.order, |c.order|, key);
    var rest := Without(c.order, |c.order|, key);
    assert c.order[..|c.order|] == c.order;
    WeightShift(rest, c.items, key, |rest|);
    DroppedBytes(c, key);
    WeightSame(rest, c.items, rest, c.items - {key}, |rest|);
  }

  /** What is evicted is exactly the shortest least-recently-used tail: the n most recently used all stay if and only
      if together they fit. */
  lemma {:induction false} EvictsTheShortestTail(c: Lru, n: nat, max: int)
    requires Known(c.order, c.items) && n <= |c.order|
    ensures |Trim(c, max).order| >= n <==> n == 0 || Weight(c.order, c.items, n) <= max
  {
    FitExactly(c.order, c.items, |c.order|, n, max);
  }

  lemma {:induction false} FitExactly(order: seq<string>, items: map<string, Entry>, n: nat, m: nat, max: int)
    requires m <= n <= |order| && Known(order, items)
    ensures m <= Fit(order, items, n, max) <==> m == 0 || Weight(order, items, m) <= max
  {
    WeightGrows(order, items, m, n);
    if n > 0 && Weight(order, items, n) > max && m < n {
      FitExactly(order, items, n - 1, m, max);
    }
  }

  lemma {:induction false} WeightGrows(order: seq<string>, items: map<string, Entry>, m: nat, n: nat)
    requires m <= n <= |order| && Known(order, items)
    ensures Weight(order, items, m) <= Weight(order, items, n)
  {
    if m < n {
      WeightGrows(order, items, m, n - 1);
    }
  }

  /** Part of the way through an eviction. */
  ghost predicate Evicting(all: Lru, c: Lru, max: int) {
    Matches(all) && Matches(c) && |c.order| <= |all.order| && c == First(all, |c.order|)
    && Fit(all.order, all.items, |all.order|, max) == Fit(all.order, all.items, |c.order|, max)
    && Bytes(c) == Weight(all.order, all.items, |c.order|)
  }

  lemma {:induction false} EvictingStep(all: Lru, c: Lru, max: int)
    requires Evicting(all, c, max) && Bytes(c) > max && |c.order| > 0
    ensures var last := c.order[|c.order| - 1]; last in c.items && Evicting(all, Dropped(c, last), max)
  {
    var n := |c.order|;
    LastDropped(all, n);
    FirstMatches(all, n - 1);
  }

  class Cache {
    var order: seq<string> // front is most recently used
    var items: map<string, Entry>
    var bytes: int
    const maxBytes: int

    constructor (maxBytes: int)
      ensures Valid() && Held() == EMPTY && this.maxBytes == maxBytes
    {
      order, items, bytes := [], map[], 0;
      this.maxBytes := maxBytes;
    }

    function Held(): Lru
      reads this
    {
      Lru(order, items)
    }

    /** The byte counter is the sum of the entries, and within the budget unless nothing is left. */
    ghost predicate Valid()
      reads this
    {
      Matches(Held()) && bytes == Bytes(Held()) && (bytes <= maxBytes || |order| == 0)
    }

    method Get(key: string, now: Time) returns (value: Option<string>)
      requires Valid()
      modifies this
      ensures Valid() && (Held(), value) == Got(old(Held()), key, now)
    {
      if key !in items {
        return None;
      }
      if now > items[key].expires {
        Forget(key);
        return None;
      }
      TouchedBytes(Held(), key);
      var rest := Remove(order, key);
      order := [key] + rest;
      value := Some(items[key].value);
      TouchedHolds(old(order), key);
    }

    /** remove: the list, the map and the counter. */
    method Forget(key: string)
      requires Matches(Held()) && bytes == Bytes(Held()) && key in items
      modifies this
      ensures Matches(Held()) && bytes == Bytes(Held()) && bytes <= old(bytes)
      ensures Held() == Dropped(old(Held()), key) && |order| == |old(order)| - 1
    {
      DroppedBytes(Held(), key);
      ghost var at :| 0 <= at < |order| && order[at] == key;
      WithoutAt(order, |order|, at);
      bytes := bytes - items[key].size;
      order := Remove(order, key);
      items := items - {key};
    }

    /** The eviction loop: the least recently used leave until the rest fit. */
    method Evict()
      requires Matches(Held()) && bytes == Bytes(Held())
      modifies this
      ensures Valid() && Held() == Trim(old(Held()), maxBytes)
    {
      ghost var all := Held();
      assert First(all, |all.order|) == all;
      while bytes > maxBytes && |order| > 0
        invariant Evicting(all, Held(), maxBytes) && bytes == Bytes(Held())
        decreases |order|
      {
        EvictingStep(all, Held(), maxBytes);
        Forget(order[|order| - 1]);
      }
    }

    method Put(key: string, value: string, now: Time, ttl: Time)
      requires Valid()
      modifies this
      ensures Valid() && Held() == Stored(old(Held()), key, value, now + ttl, maxBytes)
    {
      AddedBytes(Held(), key, value, now + ttl);
      ghost var added := Added(Held(), key, value, now + ttl);
      var size := |key| + |value|;
      bytes := bytes + size - if key in items then items[key].size else 0;
      var rest := Remove(order, key);
      order, items := [key] + rest, items[key := Entry(value, now + ttl, size)];
      assert Held() == added;
      Evict();
    }
  }

  // ---- runs ----

  datatype Op = Get(key: string, now: Time) | Put(key: string, value: string, now: Time, ttl: Time)

  /** The value a run last put under each key, and until when. */
  type Latest = map<string, Entry>

  ghost function Step(c: Lru, op: Op, max: int): (after: Lru)
    requires Matches(c)
    ensures Matches(after)
  {
    match op
    case Get(key, now) =>
      DroppedMatches(c, key);
      TouchedHolds(c.order, key);
      Got(c, key, now).0
    case Put(key, value, now, ttl) => Stored(c, key, value, now + ttl, max)
  }

  ghost function Run(ops: seq<Op>, n: nat, max: int): (c: Lru)
    requires n <= |ops|
    ensures Matches(c)
  {
    if n == 0 then EMPTY else Step(Run(ops, n - 1, max), ops[n - 1], max)
  }

  function LatestAfter(ops: seq<Op>, n: nat): Latest
    requires n <= |ops|
  {
    if n == 0 then map[] else Noted(LatestAfter(ops, n - 1), ops[n - 1])
  }

  function Noted(latest: Latest, op: Op): Latest {
    match op
    case Get(_, _) => latest
    case Put(key, value, now, ttl) => latest[key := Entry(value, now + ttl, |key| + |value|)]
  }

  /** Everything held is what was last put under its key. */
  ghost predicate Current(c: Lru, latest: Latest) {
    forall k <- c.items :: k in latest && c.items[k] == latest[k]
  }

  lemma {:induction false} StoredCurrent(c: Lru, latest: Latest, key: string, value: string, expires: Time, max: int)
    requires Matches(c) && Current(c, latest)
    ensures Current(Stored(c, key, value, expires, max), latest[key := Entry(value, expires, |key| + |value|)])
  {
    AddedMatches(c, key, value, expires);
    var added := Added(c, key, value, expires);
    assert Current(added, latest[key := Entry(value, expires, |key| + |value|)]);
  }

  lemma {:induction false} GotCurrent(c: Lru, latest: Latest, key: string, now: Time)
    requires Matches(c) && Current(c, latest)
    ensures Current(Got(c, key, now).0, latest)
  {
  }

  lemma {:induction false} StepCurrent(c: Lru, latest: Latest, op: Op, max: int)
    requires Matches(c) && Current(c, latest)
    ensures Current(Step(c, op, max), Noted(latest, op))
  {
    match op
    case Get(key, now) => GotCurrent(c, latest, key, now);
    case Put(key, value, now, ttl) => StoredCurrent(c, latest, key, value, now + ttl, max);
  }

  lemma {:induction false} HoldsOnlyLatest(ops: seq<Op>, n: nat, max: int)
    requires n <= |ops|
    ensures Current(Run(ops, n, max), LatestAfter(ops, n))
  {
    if n > 0 {
      HoldsOnlyLatest(ops, n - 1, max);
      StepCurrent(Run(ops, n - 1, max), LatestAfter(ops, n - 1), ops[n - 1], max);
    }
  }

  // ---- nothing is lost while it fits ----

  /** The bytes of the first n operations' puts. */
  function PutBytes(ops: seq<Op>, n: nat): nat
    requires n <= |ops|
  {
    if n == 0 then 0
    else PutBytes(ops, n - 1) + if ops[n - 1].Put? then |ops[n - 1].key| + |ops[n - 1].value| else 0
  }

  /** The clock never goes back. */
  predicate ClockRuns(ops: seq<Op>, n: nat, now: Time)
    requires n <= |ops|
  {
    n == 0 || (ops[n - 1].now <= now && ClockRuns(ops, n - 1, ops[n - 1].now))
  }

  /** Everything put and alive is held. */
  ghost predicate HoldsAlive(c: Lru, latest: Latest, now: Time) {
    forall k <- latest :: now <= latest[k].expires ==> k in c.items && c.items[k] == latest[k]
  }

  lemma {:induction false} AllFit(c: Lru, max: int)
    requires Matches(c) && Bytes(c) <= max
    ensures Known(c.order, c.items) && Trim(c, max) == c
  {
    assert c.order[..|c.order|] == c.order;
    assert (map k | k in c.items && k in c.order :: c.items[k]) == c.items;
  }

  lemma {:induction false} StoredWhole(c: Lru, op: Op, max: int)
    requires Matches(c) && op.Put? && Bytes(c) + |op.key| + |op.value| <= max
    ensures Stored(c, op.key, op.value, op.now + op.ttl, max) == Added(c, op.key, op.value, op.now + op.ttl)
    ensures Bytes(Stored(c, op.key, op.value, op.now + op.ttl, max)) <= Bytes(c) + |op.key| + |op.value|
  {
    AddedBytes(c, op.key, op.value, op.now + op.ttl);
    AllFit(Added(c, op.key, op.value, op.now + op.ttl), max);
  }

  lemma {:induction false} GotLess(c: Lru, op: Op)
    requires Matches(c) && op.Get?
    ensures Matches(Got(c, op.key, op.now).0) && Bytes(Got(c, op.key, op.now).0) <= Bytes(c)
  {
    if op.key in c.items {
      DroppedBytes(c, op.key);
      TouchedBytes(c, op.key);
    }
  }

  lemma {:induction false} KeepsAlive(ops: seq<Op>, n: nat, max: int, now: Time)
    requires n <= |ops| && ClockRuns(ops, n, now) && PutBytes(ops, n) <= max
    ensures HoldsAlive(Run(ops, n, max), LatestAfter(ops, n), now) && Bytes(Run(ops, n, max)) <= PutBytes(ops, n)
  {
    if n > 0 {
      var c, op := Run(ops, n - 1, max), ops[n - 1];
      KeepsAlive(ops, n - 1, max, op.now);
      StepIs(c, op, max);
      if op.Put? {
        StoredWhole(c, op, max);
      } else {
        GotLess(c, op);
      }
    }
  }

  /** While everything put fits together nothing is lost: over every run on a clock that does not go back, a get hits if
      and only if something was put under its key and what was put last is alive. */
  lemma {:induction false} HitsExactlyWhileItFits(ops: seq<Op>, max: int, key: string, now: Time)
    requires ClockRuns(ops, |ops|, now) && PutBytes(ops, |ops|) <= max
    ensures Got(Run(ops, |ops|, max), key, now).1
            == if key in LatestAfter(ops, |ops|) && now <= LatestAfter(ops, |ops|)[key].expires
               then Some(LatestAfter(ops, |ops|)[key].value) else None
  {
    KeepsAlive(ops, |ops|, max, now);
    HoldsOnlyLatest(ops, |ops|, max);
  }

  // ---- least recently used ----

  /** Putting a key uses it, and so does a get that finds it alive. */
  predicate Uses(c: Lru, op: Op) {
    op.Put? || (op.key in c.items && op.now <= c.items[op.key].expires)
  }

  /** The last of the first n operations that used a key, or -1. */
  ghost function LastUse(ops: seq<Op>, n: nat, max: int, key: string): (i: int)
    requires n <= |ops|
    ensures i < n
  {
    if n == 0 then -1
    else if ops[n - 1].key == key && Uses(Run(ops, n - 1, max), ops[n - 1]) then n - 1
    else LastUse(ops, n - 1, max, key)
  }

  /** What one more operation makes of the last uses. */
  ghost predicate Since(c: Lru, op: Op, used: string -> int, since: string -> int) {
    (forall k :: k != op.key || !Uses(c, op) ==> since(k) == used(k))
    && (Uses(c, op) ==> forall k :: k != op.key ==> since(k) < since(op.key))
  }

  lemma {:induction false} GotByUse(c: Lru, op: Op, used: string -> int, since: string -> int)
    requires Matches(c) && op.Get? && ByUse(c.order, used) && Since(c, op, used, since)
    ensures ByUse(Got(c, op.key, op.now).0.order, since)
  {
    if Uses(c, op) {
      TouchedByUse(c.order, used, since, op.key);
    } else {
      SameByUse(c.order, used, since);
      WithoutByUse(c.order, since, |c.order|, op.key);
    }
  }

  lemma {:induction false} StoredByUse(c: Lru, op: Op, max: int, used: string -> int, since: string -> int)
    requires Matches(c) && op.Put? && ByUse(c.order, used) && Since(c, op, used, since)
    ensures ByUse(Stored(c, op.key, op.value, op.now + op.ttl, max).order, since)
  {
    TouchedByUse(c.order, used, since, op.key);
    var added := Added(c, op.key, op.value, op.now + op.ttl);
    AddedMatches(c, op.key, op.value, op.now + op.ttl);
    PrefixByUse(added.order, since, Fit(added.order, added.items, |added.order|, max));
  }

  lemma {:induction false} StepIs(c: Lru, op: Op, max: int)
    requires Matches(c)
    ensures op.Put? ==> Step(c, op, max) == Stored(c, op.key, op.value, op.now + op.ttl, max)
    ensures op.Get? ==> Step(c, op, max) == Got(c, op.key, op.now).0
  {
  }

  lemma {:induction false} StepByUse(c: Lru, op: Op, max: int, used: string -> int, since: string -> int)
    requires Matches(c) && ByUse(c.order, used) && Since(c, op, used, since)
    ensures ByUse(Step(c, op, max).order, since)
  {
    StepIs(c, op, max);
    if op.Put? {
      StoredByUse(c, op, max, used, since);
    } else {
      GotByUse(c, op, used, since);
    }
  }

  lemma {:induction false} LastUseSince(ops: seq<Op>, n: nat, max: int)
    requires 0 < n <= |ops|
    ensures Since(Run(ops, n - 1, max), ops[n - 1], k => LastUse(ops, n - 1, max, k), k => LastUse(ops, n, max, k))
  {
  }

  /** In every run the list of keys stands by last use, the latest first. */
  lemma {:induction false} StandsByUse(ops: seq<Op>, n: nat, max: int)
    requires n <= |ops|
    ensures ByUse(Run(ops, n, max).order, k => LastUse(ops, n, max, k))
  {
    if n > 0 {
      StandsByUse(ops, n - 1, max);
      LastUseSince(ops, n, max);
      StepByUse(Run(ops, n - 1, max), ops[n - 1], max, k => LastUse(ops, n - 1, max, k), k => LastUse(ops, n, max, k));
    }
  }

  lemma {:induction false} PutEvicts(c: Lru, op: Op, max: int, used: string -> int, since: string -> int, gone: string,
                                     stays: string)
    requires Matches(c) && op.Put? && ByUse(c.order, used) && Since(c, op, used, since)
    requires gone in c.items && gone !in Step(c, op, max).items && stays in Step(c, op, max).items
    ensures since(gone) < since(stays)
  {
    var added := Added(c, op.key, op.value, op.now + op.ttl);
    AddedMatches(c, op.key, op.value, op.now + op.ttl);
    TouchedByUse(c.order, used, since, op.key);
    LeftOutByUse(added.order, since, Fit(added.order, added.items, |added.order|, max), gone, stays);
  }

  lemma {:induction false} RunNext(ops: seq<Op>, n: nat, max: int)
    requires n < |ops|
    ensures Run(ops, n + 1, max) == Step(Run(ops, n, max), ops[n], max)
  {
  }

  /** So the cache evicts the least recently used: in every run, a key that leaves to make room was last used before any
      that stays. */
  lemma {:induction false} EvictsLeastRecentlyUsed(ops: seq<Op>, n: nat, max: int, gone: string, stays: string)
    requires n < |ops| && ops[n].Put?
    requires gone in Run(ops, n, max).items && gone !in Run(ops, n + 1, max).items && stays in Run(ops, n + 1, max).items
    ensures LastUse(ops, n + 1, max, gone) < LastUse(ops, n + 1, max, stays)
  {
    StandsByUse(ops, n, max);
    RunNext(ops, n, max);
    LastUseSince(ops, n + 1, max);
    PutEvicts(Run(ops, n, max), ops[n], max, k => LastUse(ops, n, max, k), k => LastUse(ops, n + 1, max, k), gone, stays);
  }

  /** Over every run of puts and gets, under any budget, a hit is the value last put under that key, while that put
      lives. */
  lemma {:induction false} HitsAreTheLastPut(ops: seq<Op>, max: int, key: string, now: Time)
    ensures var c := Run(ops, |ops|, max);
            var hit := Got(c, key, now).1;
            hit.Some? ==> key in LatestAfter(ops, |ops|)
                          && LatestAfter(ops, |ops|)[key].value == hit.value
                          && now <= LatestAfter(ops, |ops|)[key].expires
  {
    HoldsOnlyLatest(ops, |ops|, max);
  }
}
