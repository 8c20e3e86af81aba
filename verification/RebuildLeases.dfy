// The fenced leases on background rebuilds (internal/scout/handler.go).
module RebuildLeases {
  import opened Common

  const MAX_LIVE: nat := 8

  /** A booking, the cool-off of a degraded one, or an outage hold; its generation is the fencing token. */
  datatype Lease = Lease(until: Time, gen: nat, outage: bool)

  datatype Leases = Leases(held: map<string, Lease>, gen: nat, live: nat)

  const NONE := Leases(map[], 0, 0)

  function Swept(held: map<string, Lease>, now: Time): map<string, Lease> {
    map k | k in held && now < held[k].until :: held[k]
  }

  predicate Bookable(s: Leases, key: string, now: Time) {
    !(key in s.held && now < s.held[key].until) && s.live < MAX_LIVE
  }

  /** `sweeps` false leaves expired leases in the map. */
  function Booked(s: Leases, key: string, now: Time, until: Time, sweeps: bool): Leases {
    if !Bookable(s, key, now) then s
    else
      var held := if sweeps then Swept(s.held, now) else s.held;
      Leases(held[key := Lease(until, s.gen + 1, false)], s.gen + 1, s.live + 1)
  }

  function Released(s: Leases, key: string, gen: nat, cooloff: Option<Time>): Leases {
    var held := if key !in s.held || s.held[key].gen != gen then s.held
                else if cooloff.None? then s.held - {key}
                else s.held[key := Lease(cooloff.value, gen, false)];
    Leases(held, s.gen, if s.live > 0 then s.live - 1 else 0)
  }

  function Outage(s: Leases, key: string, now: Time, until: Time, sweeps: bool): Leases {
    var held := if sweeps then Swept(s.held, now) else s.held;
    Leases(held[key := Lease(until, s.gen + 1, true)], s.gen + 1, s.live)
  }

  predicate InOutage(s: Leases, key: string, now: Time) {
    key in s.held && s.held[key].outage && now < s.held[key].until
  }

  class Rebuilds {
    var held: map<string, Lease>
    var gen: nat
    var live: nat

    constructor ()
      ensures Now() == NONE
    {
      held, gen, live := map[], 0, 0;
    }

    function Now(): Leases
      reads this
    {
      Leases(held, gen, live)
    }

    method Sweep(now: Time)
      modifies this`held
      ensures held == Swept(old(held), now)
    {
      var todo := held.Keys;
      while todo != {}
        invariant todo <= held.Keys <= old(held).Keys
        invariant forall k <- held :: held[k] == old(held)[k]
        invariant forall k <- old(held) :: k !in todo ==> (k in held <==> now < old(held)[k].until)
        decreases todo
      {
        var k :| k in todo;
        if now >= held[k].until {
          held := held - {k};
        }
        todo := todo - {k};
      }
    }

    method MarkOutage(key: string, now: Time, until: Time)
      modifies this
      ensures Now() == Outage(old(Now()), key, now, until, true)
    {
      Sweep(now);
      gen := gen + 1;
      held := held[key := Lease(until, gen, true)];
    }

    /** Reserves a rebuild: None while the key is held, or while as many as may run are running. */
    method Book(key: string, now: Time, until: Time) returns (booked: Option<nat>)
      modifies this
      ensures booked == if Bookable(old(Now()), key, now) then Some(old(gen) + 1) else None
      ensures Now() == Booked(old(Now()), key, now, until, true)
    {
      if key in held && now < held[key].until {
        return None;
      }
      if live >= MAX_LIVE {
        return None;
      }
      Sweep(now);
      gen := gen + 1;
      held := held[key := Lease(until, gen, false)];
      live := live + 1;
      booked := Some(gen);
    }

    /** Ends a booking, or turns it into a cool-off. The slot goes back first, whatever became of the lease. */
    method Release(key: string, generation: nat, cooloff: Option<Time>)
      modifies this
      ensures Now() == Released(old(Now()), key, generation, cooloff)
    {
      if live > 0 {
        live := live - 1;
      }
      if key !in held || held[key].gen != generation {
        return;
      }
      if cooloff.None? {
        held := held - {key};
        return;
      }
      held := held[key := Lease(cooloff.value, generation, false)];
    }
  }

  // ---- runs ----

  datatype Op =
    | Book(key: string, now: Time, until: Time)
    | Release(key: string, gen: nat, cooloff: Option<Time>)
    | Mark(key: string, now: Time, until: Time)

  /** A grant not yet released. */
  datatype Grant = Grant(key: string, gen: nat)

  function Step(s: Leases, op: Op, sweeps: bool): Leases {
    match op
    case Book(key, now, until) => Booked(s, key, now, until, sweeps)
    case Release(key, gen, cooloff) => Released(s, key, gen, cooloff)
    case Mark(key, now, until) => Outage(s, key, now, until, sweeps)
  }

  function Run(ops: seq<Op>, n: nat, sweeps: bool): Leases
    requires n <= |ops|
  {
    if n == 0 then NONE else Step(Run(ops, n - 1, sweeps), ops[n - 1], sweeps)
  }

  /** Did operation n grant? */
  predicate Granted(ops: seq<Op>, n: nat)
    requires n < |ops|
  {
    ops[n].Book? && Bookable(Run(ops, n, true), ops[n].key, ops[n].now)
  }

  /** The grants of the first n operations that none of them released. */
  function Open(ops: seq<Op>, n: nat): set<Grant>
    requires n <= |ops|
  {
    if n == 0 then {}
    else
      var before := Open(ops, n - 1);
      if Granted(ops, n - 1) then before + {Grant(ops[n - 1].key, Run(ops, n - 1, true).gen + 1)}
      else if ops[n - 1].Release? then before - {Grant(ops[n - 1].key, ops[n - 1].gen)}
      else before
  }

  /** Every release is of a grant still open: one release per grant. */
  ghost predicate OncePerGrant(ops: seq<Op>, n: nat)
    requires n <= |ops|
  {
    n == 0 ||
    (OncePerGrant(ops, n - 1)
     && (ops[n - 1].Release? ==> Grant(ops[n - 1].key, ops[n - 1].gen) in Open(ops, n - 1)))
  }

  function Grants(ops: seq<Op>, n: nat): nat
    requires n <= |ops|
  {
    if n == 0 then 0 else Grants(ops, n - 1) + if Granted(ops, n - 1) then 1 else 0
  }

  function Releases(ops: seq<Op>, n: nat): nat
    requires n <= |ops|
  {
    if n == 0 then 0 else Releases(ops, n - 1) + if ops[n - 1].Release? then 1 else 0
  }

  /** What a run keeps: a slot for each open grant, and no open grant that shares its generation with an outage hold. */
  ghost predicate Fenced(s: Leases, open: set<Grant>) {
    s.live == |open| <= MAX_LIVE
    && (forall g <- open :: g.gen <= s.gen)
    && (forall k <- s.held :: s.held[k].gen <= s.gen)
    && (forall k <- s.held, g <- open :: s.held[k].outage ==> g.gen != s.held[k].gen)
  }

  lemma {:induction false} BookFenced(s: Leases, open: set<Grant>, key: string, now: Time, until: Time)
    requires Fenced(s, open) && Bookable(s, key, now)
    ensures Fenced(Booked(s, key, now, until, true), open + {Grant(key, s.gen + 1)})
  {
    assert Grant(key, s.gen + 1) !in open;
  }

  lemma {:induction false} ReleaseFenced(s: Leases, open: set<Grant>, grant: Grant, cooloff: Option<Time>)
    requires Fenced(s, open) && grant in open
    ensures Fenced(Released(s, grant.key, grant.gen, cooloff), open - {grant})
  {
  }

  lemma {:induction false} OutageFenced(s: Leases, open: set<Grant>, key: string, now: Time, until: Time)
    requires Fenced(s, open)
    ensures Fenced(Outage(s, key, now, until, true), open)
  {
  }

  lemma {:induction false} RunFenced(ops: seq<Op>, n: nat)
    requires n <= |ops| && OncePerGrant(ops, n)
    ensures Fenced(Run(ops, n, true), Open(ops, n))
    ensures Run(ops, n, true).live == Grants(ops, n) - Releases(ops, n)
  {
    if n > 0 {
      RunFenced(ops, n - 1);
      var s, open := Run(ops, n - 1, true), Open(ops, n - 1);
      match ops[n - 1]
      case Book(key, now, until) =>
        if Bookable(s, key, now) {
          BookFenced(s, open, key, now, until);
        }
      case Release(key, gen, cooloff) =>
        ReleaseFenced(s, open, Grant(key, gen), cooloff);
        assert |open| > 0;
      case Mark(key, now, until) => OutageFenced(s, open, key, now, until);
    }
  }

  /** Slots are conserved: in every run with one release per grant, the rebuilds counted live are the grants less the
      releases, and at most eight. */
  lemma {:induction false} SlotsConserved(ops: seq<Op>)
    requires OncePerGrant(ops, |ops|)
    ensures var live := Run(ops, |ops|, true).live;
            live == Grants(ops, |ops|) - Releases(ops, |ops|) == |Open(ops, |ops|)| && 0 <= live <= MAX_LIVE
  {
    RunFenced(ops, |ops|);
  }

  /** A late release is harmless: after every such run, releasing a grant changes nothing but that grant's own lease. A
      newer booking of the key stays, and so does an outage hold. */
  lemma {:induction false} StaleReleaseIsHarmless(ops: seq<Op>, grant: Grant, cooloff: Option<Time>, key: string)
    requires OncePerGrant(ops, |ops|) && grant in Open(ops, |ops|)
    ensures var s := Run(ops, |ops|, true);
            var after := Released(s, grant.key, grant.gen, cooloff);
            key in s.held && (key != grant.key || s.held[key].outage || s.held[key].gen != grant.gen) ==>
              key in after.held && after.held[key] == s.held[key]
  {
    RunFenced(ops, |ops|);
  }

  // ---- a second grant ----

  function Clock(ops: seq<Op>, n: nat, start: Time): Time
    requires n <= |ops|
  {
    if n == 0 then start else if ops[n - 1].Release? then Clock(ops, n - 1, start) else ops[n - 1].now
  }

  ghost predicate ClockRuns(ops: seq<Op>, n: nat, start: Time)
    requires n <= |ops|
  {
    n == 0 ||
    (ClockRuns(ops, n - 1, start) && (!ops[n - 1].Release? ==> Clock(ops, n - 1, start) <= ops[n - 1].now))
  }

  /** Between a grant at i and operation n, that grant was released. */
  ghost predicate ReleasedBetween(ops: seq<Op>, i: nat, n: nat)
    requires i < n <= |ops| && ops[i].Book?
  {
    exists m :: i < m < n && IsRelease(ops[m], ops[i].key, Run(ops, i, true).gen + 1)
  }

  predicate IsRelease(op: Op, key: string, gen: nat) {
    op.Release? && op.key == key && op.gen == gen
  }

  predicate HoldEnded(op: Op, key: string, now: Time) {
    op.Mark? && op.key == key && op.until <= now
  }

  /** Between a grant at i and operation n, an outage hold took its key, and has ended. */
  ghost predicate HeldAndEnded(ops: seq<Op>, i: nat, n: nat, now: Time)
    requires i < n <= |ops| && ops[i].Book?
  {
    exists m :: i < m < n && HoldEnded(ops[m], ops[i].key, now)
  }

  /** The lease of a key is the one granted at i, or an outage hold placed since. */
  ghost predicate StillBarred(ops: seq<Op>, i: nat, n: nat)
    requires i < n <= |ops| && ops[i].Book?
  {
    var s := Run(ops, n, true);
    ops[i].key in s.held &&
    var l := s.held[ops[i].key];
    (l == Lease(ops[i].until, Run(ops, i, true).gen + 1, false)
     || (l.outage && exists m :: i < m < n && IsHold(ops[m], ops[i].key, l.until)))
  }

  predicate IsHold(op: Op, key: string, until: Time) {
    op.Mark? && op.key == key && op.until == until
  }

  /** After a grant at i, its key is barred until the lease ended, was released, or was superseded by a hold that
      ended. */
  lemma {:induction false} BarredUntil(ops: seq<Op>, i: nat, n: nat, start: Time)
    requires i < n <= |ops| && OncePerGrant(ops, n) && ClockRuns(ops, n, start) && Granted(ops, i)
    requires forall m :: i < m < n ==> !(Granted(ops, m) && ops[m].key == ops[i].key)
    ensures StillBarred(ops, i, n) || ops[i].until <= Clock(ops, n, start) || ReleasedBetween(ops, i, n)
            || HeldAndEnded(ops, i, n, Clock(ops, n, start))
  {
    if n > i + 1 {
      BarredUntil(ops, i, n - 1, start);
      BarredStep(ops, i, n, start);
    }
  }

  lemma {:induction false} BarredStep(ops: seq<Op>, i: nat, n: nat, start: Time)
    requires i + 1 < n <= |ops| && OncePerGrant(ops, n) && ClockRuns(ops, n, start) && Granted(ops, i)
    requires !(Granted(ops, n - 1) && ops[n - 1].key == ops[i].key)
    requires StillBarred(ops, i, n - 1) || ops[i].until <= Clock(ops, n - 1, start) || ReleasedBetween(ops, i, n - 1)
             || HeldAndEnded(ops, i, n - 1, Clock(ops, n - 1, start))
    ensures StillBarred(ops, i, n) || ops[i].until <= Clock(ops, n, start) || ReleasedBetween(ops, i, n)
            || HeldAndEnded(ops, i, n, Clock(ops, n, start))
  {
    var key, op := ops[i].key, ops[n - 1];
    if ReleasedBetween(ops, i, n - 1) {
      var m :| i < m < n - 1 && IsRelease(ops[m], key, Run(ops, i, true).gen + 1);
      assert ReleasedBetween(ops, i, n);
    } else if HeldAndEnded(ops, i, n - 1, Clock(ops, n - 1, start)) {
      var m :| i < m < n - 1 && HoldEnded(ops[m], key, Clock(ops, n - 1, start));
      assert HoldEnded(ops[m], key, Clock(ops, n, start));
    } else if StillBarred(ops, i, n - 1) {
      RunFenced(ops, n - 1);
      var l := Run(ops, n - 1, true).held[key];
      if op.Mark? && op.key == key {
        assert IsHold(op, key, op.until);
        assert StillBarred(ops, i, n);
      } else if op.Release? && op.key == key && l.gen == op.gen {
        assert IsRelease(op, key, Run(ops, i, true).gen + 1);
      } else if !op.Release? && l.until <= op.now {
        if l.outage {
          var m :| i < m < n - 1 && IsHold(ops[m], key, l.until);
          assert HoldEnded(ops[m], key, op.now);
        }
      } else {
        assert key in Run(ops, n, true).held && Run(ops, n, true).held[key] == l;
        if l.outage {
          var m :| i < m < n - 1 && IsHold(ops[m], key, l.until);
        }
      }
    }
  }

  /** One rebuild per lease: in every run, between two grants of a key the earlier lease ended, was released, or was
      superseded by an outage hold that has itself ended. */
  lemma {:induction false} SecondGrantWaits(ops: seq<Op>, i: nat, j: nat, start: Time)
    requires i < j < |ops| && OncePerGrant(ops, |ops|) && ClockRuns(ops, |ops|, start)
    requires Granted(ops, i) && Granted(ops, j) && ops[i].key == ops[j].key
    requires forall m :: i < m < j ==> !(Granted(ops, m) && ops[m].key == ops[i].key)
    ensures ops[i].until <= ops[j].now || ReleasedBetween(ops, i, j) || HeldAndEnded(ops, i, j, ops[j].now)
  {
    PrefixRuns(ops, |ops|, j + 1, start);
    BarredUntil(ops, i, j, start);
    var now, before := ops[j].now, Clock(ops, j, start);
    if StillBarred(ops, i, j) {
      var l := Run(ops, j, true).held[ops[i].key];
      if l.outage {
        var m :| i < m < j && IsHold(ops[m], ops[i].key, l.until);
        assert HoldEnded(ops[m], ops[i].key, now);
      }
    } else if HeldAndEnded(ops, i, j, before) {
      var m :| i < m < j && HoldEnded(ops[m], ops[i].key, before);
      assert HoldEnded(ops[m], ops[i].key, now);
    }
  }

  lemma {:induction false} PrefixRuns(ops: seq<Op>, n: nat, m: nat, start: Time)
    requires m <= n <= |ops| && OncePerGrant(ops, n) && ClockRuns(ops, n, start)
    ensures OncePerGrant(ops, m) && ClockRuns(ops, m, start)
  {
    if m < n {
      PrefixRuns(ops, n - 1, m, start);
    }
  }

  // ---- sweeping ----

  /** A booking that is granted, and a hold, leave no lease in the map that has ended, and lose none that has not. */
  lemma {:induction false} OnlyRunningStay(s: Leases, op: Op, key: string)
    requires (op.Book? && Bookable(s, op.key, op.now)) || op.Mark?
    ensures var after := Step(s, op, true);
            op.key in after.held && after.held[op.key].until == op.until
            && (key != op.key ==>
                  (key in after.held <==> key in s.held && s.held[key].until > op.now)
                  && (key in after.held ==> after.held[key] == s.held[key]))
  {
  }

  /** Two maps that differ only in leases that have ended. */
  ghost predicate SameWhileLive(x: Leases, y: Leases, now: Time) {
    x.gen == y.gen && x.live == y.live
    && (forall k <- x.held :: k in y.held && y.held[k] == x.held[k])
    && forall k <- y.held :: k in x.held || y.held[k].until <= now
  }

  /** A degraded release comes too late: its lease has been swept away, though it would be there to turn into a cool-off
      that is not over yet. */
  ghost predicate TooLate(ops: seq<Op>, n: nat, start: Time)
    requires n < |ops|
  {
    match ops[n]
    case Release(key, gen, Some(until)) =>
      var kept := Run(ops, n, false);
      key in kept.held && kept.held[key].gen == gen && key !in Run(ops, n, true).held && Clock(ops, n, start) < until
    case _ => false
  }

  ghost predicate InTime(ops: seq<Op>, n: nat, start: Time)
    requires n <= |ops|
  {
    n == 0 || (InTime(ops, n - 1, start) && !TooLate(ops, n - 1, start))
  }

  lemma {:induction false} SweepingRun(ops: seq<Op>, n: nat, start: Time)
    requires n <= |ops| && ClockRuns(ops, n, start) && InTime(ops, n, start)
    ensures SameWhileLive(Run(ops, n, true), Run(ops, n, false), Clock(ops, n, start))
  {
    if n > 0 {
      SweepingRun(ops, n - 1, start);
    }
  }

  /** A booking of this key, and a question about an outage, are answered as by a map that is never swept. */
  predicate SameAnswer(ops: seq<Op>, n: nat, key: string, now: Time)
    requires n <= |ops|
  {
    var x, y := Run(ops, n, true), Run(ops, n, false);
    (Bookable(x, key, now) <==> Bookable(y, key, now)) && (InOutage(x, key, now) <==> InOutage(y, key, now))
  }

  ghost predicate Invisible(ops: seq<Op>, n: nat, start: Time)
    requires n <= |ops|
  {
    forall m, key, now :: 0 <= m <= n && Clock(ops, m, start) <= now ==> SameAnswer(ops, m, key, now)
  }

  lemma {:induction false} InTimeBefore(ops: seq<Op>, n: nat, m: nat, start: Time)
    requires m <= n <= |ops| && ClockRuns(ops, n, start) && InTime(ops, n, start)
    ensures ClockRuns(ops, m, start) && InTime(ops, m, start)
  {
    if m < n {
      InTimeBefore(ops, n - 1, m, start);
    }
  }

  lemma {:induction false} LiveFew(ops: seq<Op>, n: nat, sweeps: bool)
    requires n <= |ops|
    ensures Run(ops, n, sweeps).live <= MAX_LIVE
  {
    if n > 0 {
      LiveFew(ops, n - 1, sweeps);
    }
  }

  /** The first release that is too late shows: its key can be booked, which it could not be. */
  lemma {:induction false} TooLateShows(ops: seq<Op>, n: nat, start: Time)
    requires n < |ops| && ClockRuns(ops, n, start) && InTime(ops, n, start) && TooLate(ops, n, start)
    ensures !SameAnswer(ops, n + 1, ops[n].key, Clock(ops, n + 1, start))
  {
    SweepingRun(ops, n, start);
    LiveFew(ops, n, true);
  }

  lemma {:induction false} LateShows(ops: seq<Op>, n: nat, start: Time)
    requires n <= |ops| && ClockRuns(ops, n, start) && !InTime(ops, n, start)
    ensures !Invisible(ops, n, start)
  {
    if !InTime(ops, n - 1, start) {
      LateShows(ops, n - 1, start);
    } else {
      TooLateShows(ops, n - 1, start);
    }
  }

  /** Sweeping is invisible, in that every answer at every point of a run is the one a map that is never swept would give,
      if and only if no degraded release comes too late. */
  lemma {:induction false} SweepingIsInvisible(ops: seq<Op>, start: Time)
    requires ClockRuns(ops, |ops|, start)
    ensures Invisible(ops, |ops|, start) <==> InTime(ops, |ops|, start)
  {
    if InTime(ops, |ops|, start) {
      forall m, key, now | 0 <= m <= |ops| && Clock(ops, m, start) <= now ensures SameAnswer(ops, m, key, now) {
        InTimeBefore(ops, |ops|, m, start);
        SweepingRun(ops, m, start);
      }
    } else {
      LateShows(ops, |ops|, start);
    }
  }

  /** A degraded release that comes after its lease ended may leave no cool-off: here the booking of another key has
      swept the lease away by then. */
  lemma {:induction false} LateCooloffIsLost()
    ensures var a := Booked(NONE, "a", 0, 10, true);
            var swept := Released(Booked(a, "b", 20, 30, true), "a", 1, Some(80));
            var unswept := Released(Booked(a, "b", 20, 30, false), "a", 1, Some(80));
            Bookable(swept, "a", 25) && !Bookable(unswept, "a", 25)
  {
    var a := Booked(NONE, "a", 0, 10, true);
    assert a == Leases(map["a" := Lease(10, 1, false)], 1, 1);
    assert "a" !in Swept(a.held, 20);
    assert Booked(a, "b", 20, 30, false).held["a"] == Lease(10, 1, false);
  }
}
