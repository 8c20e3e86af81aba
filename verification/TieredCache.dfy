// The memory cache with a disk store under it (internal/scout/diskcache.go).
//
// Every disk operation may fail; what fails is an argument of the operation. File names are hashes of keys, taken to
// be distinct for distinct keys.
module TieredCache {
  import opened Common
  import opened Recency
  import Memory = MemoryCache

  /** A file: the unix second it expires at, the value, and when it was written. */
  datatype File = File(expires: int, value: string, written: Time)

  /** The whole cache: memory, the files, whether persistence is off, and the bytes written since the last sweep. */
  datatype Tiered = Tiered(mem: Memory.Lru, disk: map<string, File>, off: bool, written: int)

  datatype Config = Config(memBytes: int, diskBytes: int, hasDir: bool)

  function UnixSeconds(t: Time): int { t / SECOND }

  function Digits(n: int): nat
    decreases if n < 0 then 1 - n else n
  {
    if n < 0 then 1 + Digits(-n) else if n < 10 then 1 else 1 + Digits(n / 10)
  }

  /** The decimal expiry, a newline, and the value. */
  function Size(f: File): nat { Digits(f.expires) + 1 + |f.value| }

  /** What goes wrong during one operation. */
  datatype Faults = Faults(write: bool, remove: bool, read: bool)

  /** What goes wrong during one sweep: the directory, and per file the opening, the stat and the removal. */
  datatype SweepFaults = SweepFaults(dir: bool, open: set<string>, stat: set<string>, remove: set<string>)

  // ---- operations ----

  /** The disk's part of a put: the file is removed for a volatile value and replaced for a durable one. A failure
      turns persistence off. */
  function Persisted(t: Tiered, c: Config, key: string, value: string, now: Time, ttl: Time, durable: bool, bad: Faults)
    : Tiered
  {
    if !durable then
      if !c.hasDir then t
      else if bad.remove then t.(off := true)
      else t.(disk := t.disk - {key})
    else if t.off then t
    else if bad.write then t.(off := true)
    else
      var f := File(UnixSeconds(now + ttl), value, now);
      t.(disk := t.disk[key := f], written := Counted(t.written, Size(f), c.diskBytes))
  }

  /** PutClass: memory first. */
  ghost function PutClass(t: Tiered, c: Config, key: string, value: string, now: Time, ttl: Time, durable: bool,
                          bad: Faults): (after: Tiered)
    requires Memory.Matches(t.mem)
    ensures Memory.Matches(after.mem)
  {
    var mem := Memory.Stored(t.mem, key, value, now + ttl, c.memBytes);
    Persisted(t.(mem := mem), c, key, value, now, ttl, durable, bad)
  }

  /** noteWritten: the counter starts over when it reaches the budget and a sweep is due. */
  function Counted(written: int, size: nat, budget: int): int {
    if budget <= 0 then written else if written + size < budget then written + size else 0
  }

  /** Get: memory, then the file, which is put back in memory for what is left of its life. */
  ghost function Got(t: Tiered, c: Config, key: string, now: Time, bad: Faults): (r: (Tiered, Option<string>))
    requires Memory.Matches(t.mem)
    ensures Memory.Matches(r.0.mem)
  {
    Memory.DroppedMatches(t.mem, key);
    Memory.TouchedMatches(t.mem, key);
    var (mem, hit) := Memory.Got(t.mem, key, now);
    var asked := t.(mem := mem);
    if hit.Some? then (asked, hit)
    else if t.off || bad.read || key !in t.disk then (asked, None)
    else
      var f := t.disk[key];
      if UnixSeconds(now) >= f.expires then
        (if bad.remove then asked else asked.(disk := t.disk - {key}), None)
      else (asked.(mem := Memory.Stored(mem, key, f.value, f.expires * SECOND, c.memBytes)), Some(f.value))
  }

  // ---- the sweep ----

  /** The files an expiry pass keeps: the live ones, those it could not open, and those it could not remove. */
  function Unexpired(disk: map<string, File>, now: Time, bad: SweepFaults): map<string, File> {
    map k | k in disk && (UnixSeconds(now) < disk[k].expires || k in bad.open || k in bad.remove) :: disk[k]
  }

  /** The files the budget pass may take: live, and stat answered. */
  function Sweepable(disk: map<string, File>, now: Time, bad: SweepFaults): set<string> {
    set k | k in disk && (UnixSeconds(now) < disk[k].expires || k in bad.open) && k !in bad.stat
  }

  /** No file at an earlier place was written later. */
  ghost predicate NoneNewerBefore(order: seq<string>, disk: map<string, File>, j: int)
    requires 0 <= j < |order|
  {
    order[j] in disk
    && forall i :: 0 <= i < j && order[i] in disk ==> disk[order[i]].written <= disk[order[j]].written
  }

  ghost predicate OldestFirst(order: seq<string>, disk: map<string, File>, keys: set<string>) {
    Distinct(order) && (forall k :: k in order <==> k in keys)
    && forall j :: 0 <= j < |order| ==> NoneNewerBefore(order, disk, j)
  }

  function SizeOf(order: seq<string>, disk: map<string, File>, n: nat): nat
    requires n <= |order|
  {
    if n == 0 then 0
    else SizeOf(order, disk, n - 1) + if order[n - 1] in disk then Size(disk[order[n - 1]]) else 0
  }

  /** The budget pass over the first n: each is removed while the total is over the budget, if its removal works. */
  function Reaped(order: seq<string>, disk: map<string, File>, total: int, n: nat, budget: int, stuck: set<string>)
    : (map<string, File>, int)
    requires n <= |order|
  {
    if n == 0 then (disk, total)
    else
      var (left, bytes) := Reaped(order, disk, total, n - 1, budget, stuck);
      var k := order[n - 1];
      if bytes <= budget || k in stuck || k !in left then (left, bytes) else (left - {k}, bytes - Size(left[k]))
  }

  /** Sweep. `order` is the order the budget pass takes files in. */
  function Swept(t: Tiered, c: Config, now: Time, order: seq<string>, bad: SweepFaults): Tiered {
    if !c.hasDir || bad.dir then t
    else
      var live := Unexpired(t.disk, now, bad);
      var total := SizeOf(order, live, |order|);
      var left := if c.diskBytes <= 0 || total <= c.diskBytes then live
                  else Reaped(order, live, total, |order|, c.diskBytes, bad.remove).0;
      t.(disk := left, written := 0)
  }

  lemma {:induction false} ReapedOnlyRemoves(order: seq<string>, disk: map<string, File>, total: int, n: nat,
                                             budget: int, stuck: set<string>)
    requires n <= |order|
    ensures forall k <- Reaped(order, disk, total, n, budget, stuck).0 ::
              k in disk && Reaped(order, disk, total, n, budget, stuck).0[k] == disk[k]
  {
    if n > 0 {
      ReapedOnlyRemoves(order, disk, total, n - 1, budget, stuck);
    }
  }

  /** No sweep, whatever fails in it, changes or invents a file. */
  lemma {:induction false} SweepOnlyRemoves(t: Tiered, c: Config, now: Time, order: seq<string>, bad: SweepFaults)
    ensures var s := Swept(t, c, now, order, bad);
            s.mem == t.mem && s.off == t.off && forall k <- s.disk :: k in t.disk && s.disk[k] == t.disk[k]
  {
    var live := Unexpired(t.disk, now, bad);
    ReapedOnlyRemoves(order, live, SizeOf(order, live, |order|), |order|, c.diskBytes, bad.remove);
  }

  /** How many files, in order, the budget pass takes when every removal works. */
  function Taken(order: seq<string>, disk: map<string, File>, total: int, n: nat, budget: int): (m: nat)
    requires n <= |order|
    ensures m <= n
  {
    if n == 0 then 0
    else
      var m := Taken(order, disk, total, n - 1, budget);
      if m < n - 1 || total - SizeOf(order, disk, m) <= budget then m else n
  }

  function Beyond(disk: map<string, File>, order: seq<string>, m: nat): map<string, File>
    requires m <= |order|
  {
    map k | k in disk && k !in order[..m] :: disk[k]
  }

  lemma {:induction false} BeyondNext(disk: map<string, File>, order: seq<string>, n: nat)
    requires n < |order| && Distinct(order) && order[n] in disk
    ensures order[n] in Beyond(disk, order, n)
            && Beyond(disk, order, n + 1) == Beyond(disk, order, n) - {order[n]}
  {
    NotBefore(order, n);
    assert order[..n + 1] == order[..n] + [order[n]];
  }

  /** What the budget pass has left after n files of which it took m. */
  ghost predicate TookFirst(order: seq<string>, disk: map<string, File>, left: map<string, File>, bytes: int,
                            total: int, m: nat, n: nat, budget: int)
    requires m <= n <= |order|
  {
    left == Beyond(disk, order, m) && bytes == total - SizeOf(order, disk, m)
    && (m < n ==> bytes <= budget)
    && (m > 0 ==> total - SizeOf(order, disk, m - 1) > budget)
  }

  lemma {:induction false} TookOneMore(order: seq<string>, disk: map<string, File>, left: map<string, File>, bytes: int,
                                       total: int, n: nat, budget: int)
    requires n < |order| && Distinct(order) && order[n] in disk
    requires TookFirst(order, disk, left, bytes, total, n, n, budget) && bytes > budget
    ensures order[n] in left && left[order[n]] == disk[order[n]]
    ensures TookFirst(order, disk, left - {order[n]}, bytes - Size(disk[order[n]]), total, n + 1, n + 1, budget)
  {
    BeyondNext(disk, order, n);
  }

  lemma {:induction false} ReapedIsPrefix(order: seq<string>, disk: map<string, File>, total: int, n: nat, budget: int)
    requires n <= |order| && (forall i :: 0 <= i < |order| ==> order[i] in disk) && Distinct(order)
    ensures var (left, bytes) := Reaped(order, disk, total, n, budget, {});
            TookFirst(order, disk, left, bytes, total, Taken(order, disk, total, n, budget), n, budget)
  {
    if n == 0 {
      assert Beyond(disk, order, 0) == disk;
    } else {
      ReapedIsPrefix(order, disk, total, n - 1, budget);
      var (left, bytes) := Reaped(order, disk, total, n - 1, budget, {});
      if bytes > budget {
        TookOneMore(order, disk, left, bytes, total, n - 1, budget);
      }
    }
  }

  /** The m oldest of the live files are gone and the rest kept, which fit; with one file fewer gone they would not. */
  ghost predicate FewestOldestGone(order: seq<string>, live: map<string, File>, left: map<string, File>, m: nat,
                                   budget: int)
    requires m <= |order|
  {
    var total := SizeOf(order, live, |order|);
    left == Beyond(live, order, m)
    && total - SizeOf(order, live, m) <= budget
    && (m > 0 ==> total - SizeOf(order, live, m - 1) > budget)
    && forall j :: m <= j < |order| ==> NoneNewerBefore(order, live, j)
  }

  /** The files that have not expired. */
  function Alive(disk: map<string, File>, now: Time): map<string, File> {
    map k | k in disk && now < disk[k].expires * SECOND :: disk[k]
  }

  /** A sweep in which nothing fails leaves no expired file and no more bytes than the budget, and takes no more than
      it must: of the live files, exactly the shortest oldest-first run whose removal makes the rest fit. */
  lemma {:induction false} SweepMeetsBudget(t: Tiered, c: Config, now: Time, order: seq<string>)
    requires c.hasDir && c.diskBytes > 0 && OldestFirst(order, t.disk, Alive(t.disk, now).Keys)
    ensures var live := Alive(t.disk, now);
            var m := Taken(order, live, SizeOf(order, live, |order|), |order|, c.diskBytes);
            FewestOldestGone(order, live, Swept(t, c, now, order, SweepFaults(false, {}, {}, {})).disk, m, c.diskBytes)
  {
    var bad := SweepFaults(false, {}, {}, {});
    var live := Unexpired(t.disk, now, bad);
    assert live == Alive(t.disk, now);
    var total := SizeOf(order, live, |order|);
    forall j | 0 <= j < |order| ensures order[j] in live && NoneNewerBefore(order, live, j) {
      assert order[j] in order && NoneNewerBefore(order, t.disk, j);
    }
    ReapedIsPrefix(order, live, total, |order|, c.diskBytes);
    if total <= c.diskBytes {
      NoneTaken(order, live, total, |order|, c.diskBytes);
      assert Beyond(live, order, 0) == live;
    }
  }

  /** What a sweep under faults leaves, for each file: without a directory, or one that cannot be read, all; an expired file
      is left only if it cannot be opened or removed; the budget pass is left out when there is no budget, takes only what
      it could ask the age of, and nothing that cannot be removed. And the counter of what was written starts over. */
  lemma {:induction false} SweepSpares(t: Tiered, c: Config, now: Time, order: seq<string>, bad: SweepFaults, key: string)
    requires key in t.disk
    ensures var s := Swept(t, c, now, order, bad);
            var stays := now < t.disk[key].expires * SECOND || key in bad.open || key in bad.remove;
            if !c.hasDir || bad.dir then s == t
            else s.written == 0 && (key in s.disk ==> stays)
                 && (stays && (c.diskBytes <= 0 || key in bad.remove || key !in order) ==> key in s.disk)
    ensures key in Sweepable(t.disk, now, bad)
            <==> (now < t.disk[key].expires * SECOND || key in bad.open) && key !in bad.stat
  {
    var live := Unexpired(t.disk, now, bad);
    ReapedOnlyRemoves(order, live, SizeOf(order, live, |order|), |order|, c.diskBytes, bad.remove);
    ReapedSpares(order, live, SizeOf(order, live, |order|), |order|, c.diskBytes, bad.remove, key);
  }

  lemma {:induction false} ReapedSpares(order: seq<string>, disk: map<string, File>, total: int, n: nat, budget: int,
                                        stuck: set<string>, key: string)
    requires n <= |order|
    ensures key in disk && (key in stuck || key !in order) ==> key in Reaped(order, disk, total, n, budget, stuck).0
  {
    if n > 0 {
      ReapedSpares(order, disk, total, n - 1, budget, stuck, key);
    }
  }

  /** With room for all that is alive the budget pass takes nothing. */
  lemma {:induction false} SweepWithinBudget(t: Tiered, c: Config, now: Time, order: seq<string>, bad: SweepFaults)
    requires c.hasDir && !bad.dir
    requires SizeOf(order, Unexpired(t.disk, now, bad), |order|) <= c.diskBytes
    ensures Swept(t, c, now, order, bad).disk == Unexpired(t.disk, now, bad)
  {
  }

  lemma {:induction false} NoneTaken(order: seq<string>, disk: map<string, File>, total: int, n: nat, budget: int)
    requires n <= |order| && total <= budget
    ensures Taken(order, disk, total, n, budget) == 0
  {
    if n > 0 {
      NoneTaken(order, disk, total, n - 1, budget);
    }
  }

  // ---- no resurrection ----

  datatype Latest = Latest(value: string, expires: Time)

  /** Memory holds only what was last put, for no longer than it was put for; and so do the files, while they are
      still read. Without a directory persistence is off. */
  ghost predicate Honest(t: Tiered, c: Config, latest: map<string, Latest>) {
    (c.hasDir || t.off) && Memory.Matches(t.mem) && InMemory(t.mem.items, latest) && (!t.off ==> OnDisk(t.disk, latest))
  }

  ghost predicate InMemory(items: map<string, Memory.Entry>, latest: map<string, Latest>) {
    forall k <- items :: k in latest && items[k].value == latest[k].value && items[k].expires <= latest[k].expires
  }

  ghost predicate OnDisk(disk: map<string, File>, latest: map<string, Latest>) {
    forall k <- disk :: k in latest && disk[k].value == latest[k].value
                        && disk[k].expires * SECOND <= latest[k].expires
  }

  datatype Op =
    | Get(key: string, now: Time, bad: Faults)
    | Put(key: string, value: string, now: Time, ttl: Time, durable: bool, bad: Faults)
    | Sweep(now: Time, order: seq<string>, faults: SweepFaults)
    | Restart(mkdirFails: bool)

  /** One operation. A restart forgets the memory and keeps the files. */
  ghost function Step(t: Tiered, c: Config, op: Op): (after: Tiered)
    requires Memory.Matches(t.mem)
    ensures Memory.Matches(after.mem)
  {
    match op
    case Get(key, now, bad) => Got(t, c, key, now, bad).0
    case Put(key, value, now, ttl, durable, bad) => PutClass(t, c, key, value, now, ttl, durable, bad)
    case Sweep(now, order, bad) => Swept(t, c, now, order, bad)
    case Restart(mkdirFails) => Tiered(Memory.EMPTY, t.disk, !c.hasDir || mkdirFails, 0)
  }

  function Noted(latest: map<string, Latest>, op: Op): map<string, Latest> {
    if op.Put? then latest[op.key := Latest(op.value, op.now + op.ttl)] else latest
  }

  lemma {:induction false} StoredHonest(mem: Memory.Lru, latest: map<string, Latest>, key: string, value: string,
                                        expires: Time, max: int)
    requires Memory.Matches(mem) && InMemory(mem.items - {key}, latest)
    requires key in latest && latest[key].value == value && expires <= latest[key].expires
    ensures InMemory(Memory.Stored(mem, key, value, expires, max).items, latest)
  {
    assert InMemory(Memory.Added(mem, key, value, expires).items, latest);
  }

  lemma {:induction false} PutOnDisk(disk: map<string, File>, latest: map<string, Latest>, key: string, value: string,
                                     now: Time, ttl: Time)
    requires OnDisk(disk, latest)
    ensures var after := latest[key := Latest(value, now + ttl)];
            OnDisk(disk - {key}, after) && OnDisk(disk[key := File(UnixSeconds(now + ttl), value, now)], after)
  {
    assert UnixSeconds(now + ttl) * SECOND <= now + ttl;
  }

  lemma {:induction false} PersistedHonest(t: Tiered, c: Config, key: string, value: string, now: Time, ttl: Time,
                                           durable: bool, bad: Faults, latest: map<string, Latest>)
    requires (c.hasDir || t.off) && (!t.off ==> OnDisk(t.disk, latest))
    ensures var p := Persisted(t, c, key, value, now, ttl, durable, bad);
            p.mem == t.mem && (!p.off ==> OnDisk(p.disk, latest[key := Latest(value, now + ttl)]))
  {
    if !t.off {
      PutOnDisk(t.disk, latest, key, value, now, ttl);
    }
  }

  lemma {:induction false} MemoryPutHonest(mem: Memory.Lru, key: string, value: string, expires: Time, max: int,
                                           latest: map<string, Latest>)
    requires Memory.Matches(mem) && InMemory(mem.items, latest)
    ensures InMemory(Memory.Stored(mem, key, value, expires, max).items, latest[key := Latest(value, expires)])
  {
    var after := latest[key := Latest(value, expires)];
    assert InMemory(mem.items - {key}, after);
    StoredHonest(mem, after, key, value, expires, max);
  }

  lemma {:induction false} PutHonest(t: Tiered, c: Config, op: Op, latest: map<string, Latest>)
    requires op.Put? && Honest(t, c, latest)
    ensures Honest(Step(t, c, op), c, Noted(latest, op))
  {
    MemoryPutHonest(t.mem, op.key, op.value, op.now + op.ttl, c.memBytes, latest);
    var stored := t.(mem := Memory.Stored(t.mem, op.key, op.value, op.now + op.ttl, c.memBytes));
    PersistedHonest(stored, c, op.key, op.value, op.now, op.ttl, op.durable, op.bad, latest);
  }

  lemma {:induction false} GetHonest(t: Tiered, c: Config, op: Op, latest: map<string, Latest>)
    requires op.Get? && Honest(t, c, latest)
    ensures Honest(Step(t, c, op), c, latest)
    ensures var hit := Got(t, c, op.key, op.now, op.bad).1;
            hit.Some? ==> op.key in latest && hit.value == latest[op.key].value && op.now <= latest[op.key].expires
  {
    var (mem, hit) := Memory.Got(t.mem, op.key, op.now);
    MemoryGetHonest(t.mem, op.key, op.now, latest);
    if hit.None? && !t.off && op.key in t.disk {
      var f := t.disk[op.key];
      StoredHonest(mem, latest, op.key, f.value, f.expires * SECOND, c.memBytes);
    }
  }

  lemma {:induction false} MemoryGetHonest(mem: Memory.Lru, key: string, now: Time, latest: map<string, Latest>)
    requires Memory.Matches(mem) && InMemory(mem.items, latest)
    ensures var (after, hit) := Memory.Got(mem, key, now);
            Memory.Matches(after) && InMemory(after.items, latest)
            && (hit.Some? ==> key in latest && hit.value == latest[key].value && now <= latest[key].expires)
  {
    Memory.DroppedMatches(mem, key);
    Memory.TouchedMatches(mem, key);
  }

  ghost function Run(t: Tiered, c: Config, ops: seq<Op>, n: nat): (after: Tiered)
    requires n <= |ops| && Memory.Matches(t.mem)
    ensures Memory.Matches(after.mem)
  {
    if n == 0 then t else Step(Run(t, c, ops, n - 1), c, ops[n - 1])
  }

  function LatestAfter(latest: map<string, Latest>, ops: seq<Op>, n: nat): map<string, Latest>
    requires n <= |ops|
  {
    if n == 0 then latest else Noted(LatestAfter(latest, ops, n - 1), ops[n - 1])
  }

  /** Whenever the process restarts, persistence was on: nothing on the disk had failed. */
  ghost predicate RestartsPersistent(t: Tiered, c: Config, ops: seq<Op>, n: nat)
    requires n <= |ops| && Memory.Matches(t.mem)
  {
    n == 0 || (RestartsPersistent(t, c, ops, n - 1) && (ops[n - 1].Restart? ==> !Run(t, c, ops, n - 1).off))
  }

  lemma {:induction false} RunHonest(t: Tiered, c: Config, ops: seq<Op>, n: nat, latest: map<string, Latest>)
    requires n <= |ops| && Honest(t, c, latest) && RestartsPersistent(t, c, ops, n)
    ensures Honest(Run(t, c, ops, n), c, LatestAfter(latest, ops, n))
  {
    if n > 0 {
      RunHonest(t, c, ops, n - 1, latest);
      var before, known, op := Run(t, c, ops, n - 1), LatestAfter(latest, ops, n - 1), ops[n - 1];
      match op
      case Get(_, _, _) => GetHonest(before, c, op, known);
      case Put(_, _, _, _, _, _) => PutHonest(before, c, op, known);
      case Sweep(now, order, bad) => SweepOnlyRemoves(before, c, now, order, bad);
      case Restart(_) =>
    }
  }

  /** No resurrection: in every run of puts, volatile puts, reads, evictions and sweeps, whatever the disk fails to do,
      and across every restart made while persistence was on, a hit is the value last put under that key, still
      alive. */
  lemma {:induction false} NoResurrection(t: Tiered, c: Config, ops: seq<Op>, latest: map<string, Latest>, key: string,
                                          now: Time, bad: Faults)
    requires Honest(t, c, latest) && RestartsPersistent(t, c, ops, |ops|)
    ensures var last := LatestAfter(latest, ops, |ops|);
            var hit := Got(Run(t, c, ops, |ops|), c, key, now, bad).1;
            hit.Some? ==> key in last && hit.value == last[key].value && now <= last[key].expires
  {
    RunHonest(t, c, ops, |ops|, latest);
    GetHonest(Run(t, c, ops, |ops|), c, Get(key, now, bad), LatestAfter(latest, ops, |ops|));
  }

  /** A restart after a failed write does resurrect: the file of the first put is still there when the second put's
      write fails, and the next process reads it. */
  lemma {:induction false} FailedWriteResurrectsAfterRestart(c: Config)
    requires c.hasDir
    ensures var good, bad := Faults(false, false, false), Faults(true, false, false);
            var t := Tiered(Memory.EMPTY, map[], false, 0);
            var put := PutClass(t, c, "k", "old", 0, HOUR, true, good);
            var again := PutClass(put, c, "k", "new", MINUTE, HOUR, true, bad);
            again.off && Got(Step(again, c, Restart(false)), c, "k", 2 * MINUTE, good).1 == Some("old")
  {
  }

  // ---- what an operation leaves ----

  /** What a read leaves: memory is asked first; then a file, if it can be read and persistence is on, which goes back to
      memory for the rest of its life when it is alive, and is removed, if that works, when it is not. */
  lemma {:induction false} GetLeaves(t: Tiered, c: Config, key: string, now: Time, bad: Faults)
    requires Memory.Matches(t.mem)
    ensures var (after, hit) := Got(t, c, key, now, bad);
            var (mem, found) := Memory.Got(t.mem, key, now);
            after.off == t.off && after.written == t.written
            && if found.Some? || t.off || bad.read || key !in t.disk then
                 hit == found && after.mem == mem && after.disk == t.disk
               else if now < t.disk[key].expires * SECOND then
                 hit == Some(t.disk[key].value) && after.disk == t.disk && Memory.Matches(mem)
                 && after.mem == Memory.Stored(mem, key, t.disk[key].value, t.disk[key].expires * SECOND, c.memBytes)
               else hit == None && after.mem == mem && after.disk == if bad.remove then t.disk else t.disk - {key}
  {
    Memory.DroppedMatches(t.mem, key);
    Memory.TouchedMatches(t.mem, key);
  }

  /** What a put leaves on the disk: its file, expiring in the whole second its life ends in; no file, for a volatile value;
      and when either fails, persistence off. */
  lemma {:induction false} PutLeaves(t: Tiered, c: Config, key: string, value: string, now: Time, ttl: Time, durable: bool,
                                     bad: Faults)
    requires Memory.Matches(t.mem)
    ensures var after := PutClass(t, c, key, value, now, ttl, durable, bad);
            after.mem == Memory.Stored(t.mem, key, value, now + ttl, c.memBytes)
            && if (if durable then t.off else !c.hasDir) then after.disk == t.disk && after.off == t.off
               else if (if durable then bad.write else bad.remove) then after.disk == t.disk && after.off
               else after.off == t.off
                    && after.disk == if durable then t.disk[key := File((now + ttl) / SECOND, value, now)] else t.disk - {key}
  {
  }

  // ---- how much is on the disk ----

  function Pow10(n: nat): nat { if n == 0 then 1 else 10 * Pow10(n - 1) }

  /** A number has as many digits as the decimal notation needs. */
  lemma {:induction false} DigitsExactly(n: nat)
    ensures Digits(n) >= 1 && n < Pow10(Digits(n)) && (n > 0 ==> Pow10(Digits(n) - 1) <= n)
    ensures n > 0 ==> Digits(0 - n as int) == 1 + Digits(n)
  {
    if n >= 10 {
      DigitsExactly(n / 10);
    } else {
      assert Pow10(1) == 10 && Pow10(0) == 1;
    }
  }

  /** The bytes of a file: the expiry in decimal, a newline, the value. */
  lemma {:induction false} SizeExactly(f: File, digits: string)
    requires |digits| == Digits(f.expires)
    ensures Size(f) == |digits + "\n" + f.value|
  {
  }

  function Sum(sizes: seq<nat>, n: nat): nat
    requires n <= |sizes|
  {
    if n == 0 then 0 else Sum(sizes, n - 1) + sizes[n - 1]
  }

  /** The counter once the first n writes since a sweep were counted. */
  function CountedAll(sizes: seq<nat>, n: nat, budget: int): int
    requires n <= |sizes|
  {
    if n == 0 then 0 else Counted(CountedAll(sizes, n - 1, budget), sizes[n - 1], budget)
  }

  /** A sweep is due when the bytes written since the last reach the budget, and no sooner: up to then the counter is their
      sum, and there it starts over. Without a budget none ever is. */
  lemma {:induction false} SweepIsDueExactly(sizes: seq<nat>, n: nat, budget: int)
    requires n <= |sizes| && forall m :: 0 <= m < n ==> budget <= 0 || Sum(sizes, m) < budget
    ensures CountedAll(sizes, n, budget) == if budget <= 0 || Sum(sizes, n) >= budget then 0 else Sum(sizes, n)
  {
    if n > 0 {
      SweepIsDueExactly(sizes, n - 1, budget);
    }
  }

  // ---- what a restart brings back ----

  /** Whether a put reaches the disk, to replace the file of its key or to remove it. */
  predicate Reaches(op: Op, t: Tiered, c: Config)
    requires op.Put?
  {
    if op.durable then !t.off && !op.bad.write else c.hasDir && !op.bad.remove
  }

  /** The last put of this key missed the disk, and an older file of it is there still. */
  ghost predicate Missed(t: Tiered, c: Config, ops: seq<Op>, n: nat, key: string)
    requires n <= |ops| && Memory.Matches(t.mem)
  {
    n > 0 && key in Run(t, c, ops, n).disk
    && if ops[n - 1].Put? && ops[n - 1].key == key then !Reaches(ops[n - 1], Run(t, c, ops, n - 1), c)
       else Missed(t, c, ops, n - 1, key)
  }

  /** A file is what was last put under its key, for no longer. */
  predicate Agrees(f: File, latest: map<string, Latest>, key: string) {
    key in latest && f.value == latest[key].value && f.expires * SECOND <= latest[key].expires
  }

  lemma {:induction false} StepFiles(t: Tiered, c: Config, op: Op, key: string)
    requires Memory.Matches(t.mem) && key in Step(t, c, op).disk && !(op.Put? && op.key == key)
    ensures key in t.disk && Step(t, c, op).disk[key] == t.disk[key]
  {
    if op.Sweep? {
      SweepOnlyRemoves(t, c, op.now, op.order, op.faults);
    }
  }

  lemma {:induction false} PutFiles(t: Tiered, c: Config, op: Op, latest: map<string, Latest>)
    requires Memory.Matches(t.mem) && op.Put? && Reaches(op, t, c) && op.key in Step(t, c, op).disk
    ensures Agrees(Step(t, c, op).disk[op.key], Noted(latest, op), op.key)
  {
    assert UnixSeconds(op.now + op.ttl) * SECOND <= op.now + op.ttl;
  }

  /** Through any faults and restarts, every file is what was last put under its key unless that put missed the disk. */
  lemma {:induction false} FilesAgreeOrMissed(t: Tiered, c: Config, ops: seq<Op>, n: nat, latest: map<string, Latest>,
                                              key: string)
    requires n <= |ops| && Memory.Matches(t.mem) && OnDisk(t.disk, latest) && key in Run(t, c, ops, n).disk
    ensures Missed(t, c, ops, n, key) || Agrees(Run(t, c, ops, n).disk[key], LatestAfter(latest, ops, n), key)
  {
    if n > 0 {
      var before, known, op := Run(t, c, ops, n - 1), LatestAfter(latest, ops, n - 1), ops[n - 1];
      if !(op.Put? && op.key == key) {
        StepFiles(before, c, op, key);
        FilesAgreeOrMissed(t, c, ops, n - 1, latest, key);
      } else if Reaches(op, before, c) {
        PutFiles(before, c, op, known);
      }
    }
  }

  /** A hit that is not what was last put under the key, or comes after that has expired. */
  ghost predicate Resurrects(t: Tiered, c: Config, latest: map<string, Latest>, key: string, now: Time, bad: Faults)
    requires Memory.Matches(t.mem)
  {
    var hit := Got(t, c, key, now, bad).1;
    hit.Some? && !(key in latest && hit.value == latest[key].value && now <= latest[key].expires)
  }

  /** The file says something else than was last put, or outlives it. */
  predicate Differs(f: File, latest: map<string, Latest>, key: string) {
    !(key in latest && f.value == latest[key].value && f.expires * SECOND - 1 <= latest[key].expires)
  }

  lemma {:induction false} FirstRead(t: Tiered, c: Config, key: string, now: Time, bad: Faults)
    requires Memory.Matches(t.mem) && c.hasDir
    ensures Got(Step(t, c, Restart(false)), c, key, now, bad).1
            == if !bad.read && key in t.disk && now < t.disk[key].expires * SECOND then Some(t.disk[key].value) else None
  {
  }

  /** What one restart brings back, exactly. After any run, through any faults and other restarts, a process started at an
      instant can read a value under a key that is not the last put, alive, if and only if the last put of that key
      missed the disk, and the older file it left there is not expired and says something else or outlives it. */
  lemma {:induction false} RestartResurrectsExactly(t: Tiered, c: Config, ops: seq<Op>, latest: map<string, Latest>,
                                                    key: string, at: Time)
    requires c.hasDir && Memory.Matches(t.mem) && OnDisk(t.disk, latest)
    ensures var before, last := Run(t, c, ops, |ops|), LatestAfter(latest, ops, |ops|);
            (exists now: Time, bad: Faults :: at <= now && Resurrects(Step(before, c, Restart(false)), c, last, key, now, bad))
            <==> Missed(t, c, ops, |ops|, key) && at < before.disk[key].expires * SECOND
                 && Differs(before.disk[key], last, key)
  {
    var before, last := Run(t, c, ops, |ops|), LatestAfter(latest, ops, |ops|);
    var after := Step(before, c, Restart(false));
    if key in before.disk {
      FilesAgreeOrMissed(t, c, ops, |ops|, latest, key);
    }
    forall now: Time, bad: Faults | at <= now && Resurrects(after, c, last, key, now, bad)
      ensures Missed(t, c, ops, |ops|, key) && at < before.disk[key].expires * SECOND
              && Differs(before.disk[key], last, key)
    {
      FirstRead(before, c, key, now, bad);
    }
    if Missed(t, c, ops, |ops|, key) && at < before.disk[key].expires * SECOND && Differs(before.disk[key], last, key) {
      var now, good := before.disk[key].expires * SECOND - 1, Faults(false, false, false);
      FirstRead(before, c, key, now, good);
      assert Resurrects(after, c, last, key, now, good);
    }
  }

  /** And where every file whose last put missed the disk agrees with it, a restart starts over as honest as any. */
  lemma {:induction false} CaughtUpIsHonest(t: Tiered, c: Config, ops: seq<Op>, latest: map<string, Latest>)
    requires c.hasDir && Memory.Matches(t.mem) && OnDisk(t.disk, latest)
    requires forall key :: Missed(t, c, ops, |ops|, key) ==>
               Agrees(Run(t, c, ops, |ops|).disk[key], LatestAfter(latest, ops, |ops|), key)
    ensures Honest(Step(Run(t, c, ops, |ops|), c, Restart(false)), c, LatestAfter(latest, ops, |ops|))
  {
    var before, last := Run(t, c, ops, |ops|), LatestAfter(latest, ops, |ops|);
    forall key | key in before.disk ensures Agrees(before.disk[key], last, key) {
      FilesAgreeOrMissed(t, c, ops, |ops|, latest, key);
    }
  }

  // ---- the cache as it runs ----

  class Cache {
    const mem: Memory.Cache
    const config: Config
    var disk: map<string, File>
    var off: bool
    var written: int

    constructor (config: Config, disk: map<string, File>, mkdirFails: bool)
      ensures Valid() && fresh(mem) && this.config == config
      ensures Now() == Tiered(Memory.EMPTY, disk, !config.hasDir || mkdirFails, 0)
    {
      mem := new Memory.Cache(config.memBytes);
      this.config, this.disk, written := config, disk, 0;
      off := !config.hasDir || mkdirFails;
    }

    ghost predicate Valid()
      reads this, mem
    {
      mem.Valid() && mem.maxBytes == config.memBytes
    }

    function Now(): Tiered
      reads this, mem
    {
      Tiered(mem.Held(), disk, off, written)
    }

    method Get(key: string, now: Time, bad: Faults) returns (value: Option<string>)
      requires Valid()
      modifies this, mem
      ensures Valid() && (Now(), value) == Got(old(Now()), config, key, now, bad)
    {
      value := mem.Get(key, now);
      if value.Some? {
        return;
      }
      if off || bad.read || key !in disk {
        return None;
      }
      var f := disk[key];
      if UnixSeconds(now) >= f.expires {
        if !bad.remove {
          disk := disk - {key};
        }
        return None;
      }
      mem.Put(key, f.value, now, f.expires * SECOND - now);
      value := Some(f.value);
    }

    method Store(key: string, value: string, now: Time, ttl: Time, durable: bool, bad: Faults)
      requires Valid()
      modifies this, mem
      ensures Valid() && Now() == PutClass(old(Now()), config, key, value, now, ttl, durable, bad)
    {
      mem.Put(key, value, now, ttl);
      if !durable {
        if config.hasDir {
          if bad.remove {
            off := true;
          } else {
            disk := disk - {key};
          }
        }
        return;
      }
      if off {
        return;
      }
      if bad.write {
        off := true;
        return;
      }
      var f := File(UnixSeconds(now + ttl), value, now);
      disk := disk[key := f];
      NoteWritten(Size(f));
    }

    method NoteWritten(size: nat)
      modifies this`written
      ensures written == Counted(old(written), size, config.diskBytes)
    {
      if config.diskBytes <= 0 {
        return;
      }
      written := written + size;
      if written >= config.diskBytes {
        written := 0;
      }
    }

    /** The expiry pass over every file, then the budget pass in the given order, oldest first. */
    method SweepFiles(now: Time, order: seq<string>, bad: SweepFaults)
      requires Valid() && OldestFirst(order, disk, Sweepable(disk, now, bad))
      modifies this`disk, this`written
      ensures Valid() && Now() == Swept(old(Now()), config, now, order, bad)
    {
      if !config.hasDir || bad.dir {
        return;
      }
      ghost var before := disk;
      var todo := disk.Keys;
      while todo != {}
        invariant todo <= disk.Keys <= before.Keys
        invariant forall k <- disk :: disk[k] == before[k]
        invariant forall k <- before :: k !in todo ==>
                    (k in disk <==> UnixSeconds(now) < before[k].expires || k in bad.open || k in bad.remove)
        decreases todo
      {
        var k :| k in todo;
        if UnixSeconds(now) >= disk[k].expires && k !in bad.open && k !in bad.remove {
          disk := disk - {k};
        }
        todo := todo - {k};
      }
      assert disk == Unexpired(before, now, bad);
      written := 0;
      ghost var live := disk;
      var bytes := 0;
      for i := 0 to |order|
        invariant bytes == SizeOf(order, disk, i)
      {
        bytes := bytes + if order[i] in disk then Size(disk[order[i]]) else 0;
      }
      if config.diskBytes <= 0 || bytes <= config.diskBytes {
        return;
      }
      ghost var total := bytes;
      for i := 0 to |order|
        invariant written == 0 && (disk, bytes) == Reaped(order, live, total, i, config.diskBytes, bad.remove)
      {
        if bytes > config.diskBytes && order[i] !in bad.remove && order[i] in disk {
          bytes := bytes - Size(disk[order[i]]);
          disk := disk - {order[i]};
        }
      }
    }
  }
}
