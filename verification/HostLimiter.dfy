// The per-host token bucket and its refunds (internal/scout/hostlimit.go).
//
// Tokens are fractional, so they are real. A run's clock counts refill intervals, one token each; the objects keep
// seconds, and their contracts convert.
module HostLimiter {

  // ---- one bucket ----

  /** The tokens a bucket was left with, and when. */
  datatype Level = Level(tokens: real, last: real)

  /** What a taker sees: the tokens earned since the last look, never more than the burst. */
  function Refilled(b: Level, now: real, burst: int): Level {
    var earned := b.tokens + (now - b.last);
    Level(if earned > burst as real then burst as real else earned, now)
  }

  /** A token spent, possibly into debt. */
  function Spent(b: Level, now: real, burst: int): Level {
    var seen := Refilled(b, now, burst); seen.(tokens := seen.tokens - 1.0)
  }

  /** How long the taker that left this level waits: its debt. */
  function Delay(b: Level): real {
    if b.tokens >= 0.0 then 0.0 else -b.tokens
  }

  predicate Allows(b: Level, now: real, burst: int) {
    Refilled(b, now, burst).tokens >= 1.0
  }

  function GivenBack(b: Level, burst: int): Level {
    if b.tokens < burst as real then b.(tokens := b.tokens + 1.0) else b
  }

  /** Seconds, counted in refill intervals. */
  function Turns(seconds: real, every: real): real
    requires every > 0.0
  {
    seconds / every
  }

  lemma {:induction false} TurnsApart(a: real, b: real, every: real)
    requires every > 0.0
    ensures Turns(a - b, every) == Turns(a, every) - Turns(b, every)
  {
  }

  class Bucket {
    var tokens: real
    var last: real // seconds

    constructor (burst: int, now: real)
      ensures tokens == burst as real && last == now
    {
      tokens, last := burst as real, now;
    }

    function Now(every: real): Level
      requires every > 0.0
      reads this
    {
      Level(tokens, Turns(last, every))
    }

    /** Spends a token only if a whole one is there. */
    method TryTake(now: real, every: real, burst: int) returns (granted: bool)
      requires every > 0.0
      modifies this
      ensures granted == Allows(old(Now(every)), Turns(now, every), burst)
      ensures Now(every) == (if granted then Spent else Refilled)(old(Now(every)), Turns(now, every), burst)
    {
      TurnsApart(now, last, every);
      tokens := tokens + (now - last) / every;
      if tokens > burst as real {
        tokens := burst as real;
      }
      last := now;
      if tokens < 1.0 {
        return false;
      }
      tokens := tokens - 1.0;
      granted := true;
    }

    /** Spends a token whether or not one is there, and tells how many seconds the caller owes. */
    method Take(now: real, every: real, burst: int) returns (delay: real)
      requires every > 0.0
      modifies this
      ensures Now(every) == Spent(old(Now(every)), Turns(now, every), burst)
      ensures delay == Delay(Now(every)) * every
    {
      TurnsApart(now, last, every);
      tokens := tokens + (now - last) / every;
      if tokens > burst as real {
        tokens := burst as real;
      }
      last := now;
      tokens := tokens - 1.0;
      if tokens >= 0.0 {
        return 0.0;
      }
      delay := -tokens * every;
    }

    method Refund(burst: int, every: real)
      requires every > 0.0
      modifies this
      ensures Now(every) == GivenBack(old(Now(every)), burst)
    {
      if tokens < burst as real {
        tokens := tokens + 1.0;
      }
    }
  }

  /** The buckets of many hosts. At `maxKeys` of them, when that is set, a new host makes it forget the rest. */
  class Limiter {
    var buckets: map<string, Bucket>
    const every: real
    const burst: int
    const maxKeys: int

    constructor (every: real, burst: int, maxKeys: int)
      ensures Valid() && buckets == map[] && this.maxKeys == maxKeys
      ensures this.every == if every <= 0.0 then 1.0 else every
      ensures this.burst == if burst < 1 then 1 else burst
    {
      buckets := map[];
      this.every := if every <= 0.0 then 1.0 else every;
      this.burst := if burst < 1 then 1 else burst;
      this.maxKeys := maxKeys;
    }

    ghost predicate Valid()
      reads this
    {
      every > 0.0 && burst >= 1
      && forall g, h :: g in buckets && h in buckets && g != h ==> buckets[g] != buckets[h]
    }

    /** The bucket of a host, made full when the limiter has none. */
    method BucketFor(host: string, now: real) returns (b: Bucket)
      requires Valid()
      modifies this`buckets
      ensures Valid() && host in buckets && b == buckets[host]
      ensures host in old(buckets) ==> buckets == old(buckets)
      ensures host !in old(buckets) ==>
                fresh(b) && b.Now(every) == Level(burst as real, Turns(now, every))
                && buckets == if maxKeys > 0 && |old(buckets)| >= maxKeys then map[host := b] else old(buckets)[host := b]
    {
      if host in buckets {
        return buckets[host];
      }
      b := new Bucket(burst, now);
      if maxKeys > 0 && |buckets| >= maxKeys {
        buckets := map[];
      }
      buckets := buckets[host := b];
    }

    /** The start of a wait: a token is spent and its delay told. No other host's bucket is touched. */
    method Reserve(host: string, now: real) returns (delay: real)
      requires Valid()
      modifies this`buckets, buckets.Values
      ensures Valid() && host in buckets && delay == Delay(buckets[host].Now(every)) * every
      ensures var before := if host in old(buckets) then old(buckets[host].Now(every))
                            else Level(burst as real, Turns(now, every));
              buckets[host].Now(every) == Spent(before, Turns(now, every), burst)
      ensures forall g <- buckets :: g != host ==> g in old(buckets) && buckets[g] == old(buckets[g])
                                                   && buckets[g].Now(every) == old(buckets[g].Now(every))
    {
      var b := BucketFor(host, now);
      delay := b.Take(now, every, burst);
    }
  }

  // ---- runs ----

  /** What reaches one bucket: a wait begins, an inbound request asks, a caller gives up waiting. */
  datatype Event = Wait(now: real) | Allow(now: real) | Abandon(caller: nat)

  /** A caller that spent a token: when it may pass, and whether it gave the token back instead. */
  datatype Caller = Caller(due: real, abandoned: bool)

  datatype State = State(bucket: Level, callers: seq<Caller>)

  function Step(s: State, e: Event, burst: int): State {
    match e
    case Wait(now) =>
      var b := Spent(s.bucket, now, burst);
      State(b, s.callers + [Caller(now + Delay(b), false)])
    case Allow(now) =>
      if Allows(s.bucket, now, burst) then State(Spent(s.bucket, now, burst), s.callers + [Caller(now, false)])
      else State(Refilled(s.bucket, now, burst), s.callers)
    case Abandon(i) =>
      if i < |s.callers| && !s.callers[i].abandoned
      then State(GivenBack(s.bucket, burst), s.callers[i := s.callers[i].(abandoned := true)])
      else s
  }

  function Run(s: State, events: seq<Event>, n: nat, burst: int): State
    requires n <= |events|
  {
    if n == 0 then s else Step(Run(s, events, n - 1, burst), events[n - 1], burst)
  }

  function Fresh(start: real, burst: int): State {
    State(Level(burst as real, start), [])
  }

  /** The clock never goes back. */
  ghost predicate ClockRuns(s: State, events: seq<Event>, n: nat, burst: int)
    requires n <= |events|
  {
    n == 0 ||
    (ClockRuns(s, events, n - 1, burst)
     && (!events[n - 1].Abandon? ==> events[n - 1].now >= Run(s, events, n - 1, burst).bucket.last))
  }

  function One(yes: bool): nat { if yes then 1 else 0 }

  /** How many of the first n callers did not give up. */
  function Standing(callers: seq<Caller>, n: nat): nat
    requires n <= |callers|
  {
    if n == 0 then 0 else Standing(callers, n - 1) + One(!callers[n - 1].abandoned)
  }

  /** How many of the first n callers pass after one instant and by another. */
  function Passed(callers: seq<Caller>, n: nat, from: real, to: real): nat
    requires n <= |callers|
  {
    if n == 0 then 0
    else
      var c := callers[n - 1];
      Passed(callers, n - 1, from, to) + One(!c.abandoned && from < c.due <= to)
  }

  lemma {:induction false} StandingAbandon(callers: seq<Caller>, i: nat, n: nat)
    requires i < |callers| && n <= |callers| && !callers[i].abandoned
    ensures Standing(callers[i := callers[i].(abandoned := true)], n) == Standing(callers, n) - One(i < n)
  {
    if n > 0 {
      StandingAbandon(callers, i, n - 1);
    }
  }

  lemma {:induction false} StandingAppend(callers: seq<Caller>, c: Caller, n: nat)
    requires n <= |callers|
    ensures Standing(callers + [c], n) == Standing(callers, n)
  {
    if n > 0 {
      StandingAppend(callers, c, n - 1);
    }
  }

  lemma {:induction false} PassedAreStanding(callers: seq<Caller>, n: nat, from: real, to: real)
    requires n <= |callers|
    ensures Passed(callers, n, from, to) <= Standing(callers, n)
  {
    if n > 0 {
      PassedAreStanding(callers, n - 1, from, to);
    }
  }

  /** The bucket holds no more than the burst and the time since it was made have earned, less the callers standing;
      and no caller is due before the time its place in that line has earned. */
  ghost predicate Earned(s: State, start: real, burst: int) {
    s.bucket.last >= start
    && s.bucket.tokens + Standing(s.callers, |s.callers|) as real <= burst as real + (s.bucket.last - start)
    && InLine(s.callers, start, burst)
  }

  ghost predicate InLine(callers: seq<Caller>, start: real, burst: int) {
    forall i :: 0 <= i < |callers| ==> InPlace(callers, i, start, burst)
  }

  ghost predicate InPlace(callers: seq<Caller>, i: int, start: real, burst: int)
    requires 0 <= i < |callers|
  {
    Standing(callers, i) as real + 1.0 <= burst as real + (callers[i].due - start)
  }

  lemma {:induction false} JoinInLine(callers: seq<Caller>, due: real, start: real, burst: int)
    requires InLine(callers, start, burst)
    requires Standing(callers, |callers|) as real + 1.0 <= burst as real + (due - start)
    ensures var more := callers + [Caller(due, false)];
            InLine(more, start, burst) && Standing(more, |more|) == Standing(callers, |callers|) + 1
  {
    var more := callers + [Caller(due, false)];
    StandingAppend(callers, Caller(due, false), |callers|);
    forall i | 0 <= i < |more| ensures InPlace(more, i, start, burst) {
      StandingAppend(callers, Caller(due, false), i);
      assert i < |callers| ==> InPlace(callers, i, start, burst);
    }
  }

  lemma {:induction false} AbandonInLine(callers: seq<Caller>, i: nat, start: real, burst: int)
    requires InLine(callers, start, burst) && i < |callers| && !callers[i].abandoned
    ensures InLine(callers[i := callers[i].(abandoned := true)], start, burst)
  {
    var after := callers[i := callers[i].(abandoned := true)];
    forall j | 0 <= j < |after| ensures InPlace(after, j, start, burst) {
      StandingAbandon(callers, i, j);
      assert InPlace(callers, j, start, burst);
    }
  }

  lemma {:induction false} StepEarned(s: State, e: Event, start: real, burst: int)
    requires Earned(s, start, burst) && (!e.Abandon? ==> e.now >= s.bucket.last)
    ensures Earned(Step(s, e, burst), start, burst)
  {
    match e
    case Wait(now) => JoinInLine(s.callers, now + Delay(Spent(s.bucket, now, burst)), start, burst);
    case Allow(now) =>
      if Allows(s.bucket, now, burst) {
        JoinInLine(s.callers, now, start, burst);
      }
    case Abandon(i) =>
      if i < |s.callers| && !s.callers[i].abandoned {
        AbandonInLine(s.callers, i, start, burst);
        StandingAbandon(s.callers, i, |s.callers|);
      }
  }

  lemma {:induction false} RunEarned(events: seq<Event>, n: nat, start: real, burst: int)
    requires n <= |events| && ClockRuns(Fresh(start, burst), events, n, burst)
    ensures Earned(Run(Fresh(start, burst), events, n, burst), start, burst)
  {
    if n > 0 {
      RunEarned(events, n - 1, start, burst);
      StepEarned(Run(Fresh(start, burst), events, n - 1, burst), events[n - 1], start, burst);
    }
  }

  lemma {:induction false} LineBoundsPasses(callers: seq<Caller>, n: nat, start: real, from: real, to: real, burst: int)
    requires n <= |callers| && InLine(callers, start, burst) && to >= start && burst >= 0
    ensures Passed(callers, n, from, to) as real <= burst as real + (to - start)
  {
    if n > 0 {
      LineBoundsPasses(callers, n - 1, start, from, to, burst);
      PassedAreStanding(callers, n - 1, from, to);
      assert InPlace(callers, n - 1, start, burst);
    }
  }

  /** The limiter limits: over every mix of waits, inbound requests and abandoned waits, the callers that pass a bucket
      by any instant are at most the burst and one for every interval since the bucket was made. */
  lemma {:induction false} PassesAreBounded(events: seq<Event>, start: real, from: real, to: real, burst: int)
    requires ClockRuns(Fresh(start, burst), events, |events|, burst) && to >= start && burst >= 1
    ensures var callers := Run(Fresh(start, burst), events, |events|, burst).callers;
            Passed(callers, |callers|, from, to) as real <= burst as real + (to - start)
  {
    RunEarned(events, |events|, start, burst);
    var callers := Run(Fresh(start, burst), events, |events|, burst).callers;
    LineBoundsPasses(callers, |callers|, start, from, to, burst);
  }

  /** No refund banks what was not earned: over every run, a taker never sees more than the burst, and the level
      between takers exceeds it by less than one token. */
  lemma {:induction false} NeverBanks(events: seq<Event>, n: nat, start: real, burst: int, now: real)
    requires n <= |events| && burst >= 1
    ensures var b := Run(Fresh(start, burst), events, n, burst).bucket;
            b.tokens < burst as real + 1.0 && Refilled(b, now, burst).tokens <= burst as real
  {
    if n > 0 {
      NeverBanks(events, n - 1, start, burst, now);
    }
  }

  // ---- windows ----

  /** The standing callers from the i-th to the j-th, and how far apart their ends are due. */
  ghost predicate SpacedTo(callers: seq<Caller>, i: nat, j: nat, burst: int)
    requires i < j < |callers|
  {
    !callers[i].abandoned && !callers[j].abandoned ==>
      callers[i].due + (Standing(callers, j + 1) - Standing(callers, i)) as real <= callers[j].due + burst as real
  }

  /** Any stretch of standing callers is as spaced as the rate says, past the burst. */
  ghost predicate Paced(callers: seq<Caller>, burst: int) {
    forall i, j :: 0 <= i < j < |callers| ==> SpacedTo(callers, i, j, burst)
  }

  /** From when the i-th caller is due, if it stands, there is an interval for each that stands from there on before an
      instant. */
  ghost predicate OwedFrom(callers: seq<Caller>, i: nat, limit: real)
    requires i < |callers|
  {
    !callers[i].abandoned ==>
      callers[i].due + (Standing(callers, |callers|) - Standing(callers, i)) as real <= limit
  }

  /** And so for every caller. */
  ghost predicate Owed(callers: seq<Caller>, limit: real) {
    forall i :: 0 <= i < |callers| ==> OwedFrom(callers, i, limit)
  }

  /** When the bucket will be full again, left alone. */
  function Clear(b: Level, burst: int): real {
    b.last + burst as real - b.tokens
  }

  lemma {:induction false} OwedLater(callers: seq<Caller>, limit: real, later: real)
    requires Owed(callers, limit) && limit <= later
    ensures Owed(callers, later)
  {
    forall i | 0 <= i < |callers| ensures OwedFrom(callers, i, later) {
      assert OwedFrom(callers, i, limit);
    }
  }

  lemma {:induction false} JoinOwed(callers: seq<Caller>, due: real, limit: real)
    requires Owed(callers, limit - 1.0) && due + 1.0 <= limit
    ensures Owed(callers + [Caller(due, false)], limit)
  {
    var c := Caller(due, false);
    var more := callers + [c];
    StandingAppend(callers, c, |callers|);
    forall i | 0 <= i < |more| ensures OwedFrom(more, i, limit) {
      StandingAppend(callers, c, i);
      assert i < |callers| ==> OwedFrom(callers, i, limit - 1.0);
    }
  }

  lemma {:induction false} JoinPaced(callers: seq<Caller>, due: real, burst: int)
    requires Paced(callers, burst) && Owed(callers, due + burst as real - 1.0)
    ensures Paced(callers + [Caller(due, false)], burst)
  {
    var c := Caller(due, false);
    var n, more := |callers|, callers + [c];
    StandingAppend(callers, c, n);
    forall i, j | 0 <= i < j < |more| ensures SpacedTo(more, i, j, burst) {
      StandingAppend(callers, c, i);
      if j < n {
        StandingAppend(callers, c, j + 1);
        assert SpacedTo(callers, i, j, burst);
      } else {
        assert OwedFrom(callers, i, due + burst as real - 1.0);
      }
    }
  }

  /** A caller that gives up from the back of the line leaves nobody owed for it; one ahead of another leaves its
      interval owed. */
  lemma {:induction false} LeaveOwed(callers: seq<Caller>, k: nat, limit: real)
    requires k < |callers| && !callers[k].abandoned && Owed(callers, limit)
    ensures var left := callers[k := callers[k].(abandoned := true)];
            Owed(left, if NewestStanding(callers, k) then limit - 1.0 else limit)
  {
    var left := callers[k := callers[k].(abandoned := true)];
    var less := if NewestStanding(callers, k) then limit - 1.0 else limit;
    StandingAbandon(callers, k, |callers|);
    forall i | 0 <= i < |left| ensures OwedFrom(left, i, less) {
      StandingAbandon(callers, k, i);
      assert OwedFrom(callers, i, limit);
    }
  }

  lemma {:induction false} LeavePaced(callers: seq<Caller>, k: nat, burst: int)
    requires k < |callers| && !callers[k].abandoned && Paced(callers, burst)
    ensures Paced(callers[k := callers[k].(abandoned := true)], burst)
  {
    var left := callers[k := callers[k].(abandoned := true)];
    forall i, j | 0 <= i < j < |left| ensures SpacedTo(left, i, j, burst) {
      StandingAbandon(callers, k, i);
      StandingAbandon(callers, k, j + 1);
      assert SpacedTo(callers, i, j, burst);
    }
  }

  /** Nobody who came after this caller still stands. */
  predicate NewestStanding(callers: seq<Caller>, i: nat) {
    forall j :: i < j < |callers| ==> callers[j].abandoned
  }

  /** How many waits were given up ahead of another caller still standing. */
  function Ahead(s: State, events: seq<Event>, n: nat, burst: int): nat
    requires n <= |events|
  {
    if n == 0 then 0
    else
      var callers, e := Run(s, events, n - 1, burst).callers, events[n - 1];
      Ahead(s, events, n - 1, burst)
      + One(e.Abandon? && e.caller < |callers| && !callers[e.caller].abandoned && !NewestStanding(callers, e.caller))
  }

  /** The line is paced and owed as if the burst were larger by the waits given up ahead of another. */
  ghost predicate Fair(s: State, burst: int, ahead: nat) {
    Paced(s.callers, burst + ahead) && Owed(s.callers, Clear(s.bucket, burst) + ahead as real)
  }

  lemma {:induction false} WaitFair(s: State, now: real, burst: int, ahead: nat)
    requires Fair(s, burst, ahead) && now >= s.bucket.last && burst >= 1
    ensures Fair(Step(s, Wait(now), burst), burst, ahead)
  {
    var level := Spent(s.bucket, now, burst);
    var due, owed := now + Delay(level), Clear(s.bucket, burst) + ahead as real;
    OwedLater(s.callers, owed, Clear(level, burst) + ahead as real - 1.0);
    OwedLater(s.callers, owed, due + (burst + ahead) as real - 1.0);
    JoinOwed(s.callers, due, Clear(level, burst) + ahead as real);
    JoinPaced(s.callers, due, burst + ahead);
  }

  lemma {:induction false} AllowFair(s: State, now: real, burst: int, ahead: nat)
    requires Fair(s, burst, ahead) && now >= s.bucket.last && burst >= 1
    ensures Fair(Step(s, Allow(now), burst), burst, ahead)
  {
    if Allows(s.bucket, now, burst) {
      assert Step(s, Allow(now), burst) == Step(s, Wait(now), burst);
      WaitFair(s, now, burst, ahead);
    } else {
      OwedLater(s.callers, Clear(s.bucket, burst) + ahead as real,
                Clear(Refilled(s.bucket, now, burst), burst) + ahead as real);
    }
  }

  lemma {:induction false} PacedLooser(callers: seq<Caller>, burst: int, more: int)
    requires Paced(callers, burst) && burst <= more
    ensures Paced(callers, more)
  {
    forall i, j | 0 <= i < j < |callers| ensures SpacedTo(callers, i, j, more) {
      assert SpacedTo(callers, i, j, burst);
    }
  }

  lemma {:induction false} AbandonFair(s: State, i: nat, burst: int, ahead: nat)
    requires Fair(s, burst, ahead) && i < |s.callers| && !s.callers[i].abandoned
    ensures Fair(Step(s, Abandon(i), burst), burst, ahead + One(!NewestStanding(s.callers, i)))
  {
    var left := s.callers[i := s.callers[i].(abandoned := true)];
    var more := ahead + One(!NewestStanding(s.callers, i));
    var owed := Clear(s.bucket, burst) + ahead as real;
    LeaveOwed(s.callers, i, owed);
    LeavePaced(s.callers, i, burst + ahead);
    PacedLooser(left, burst + ahead, burst + more);
    OwedLater(left, if NewestStanding(s.callers, i) then owed - 1.0 else owed,
              Clear(GivenBack(s.bucket, burst), burst) + more as real);
  }

  lemma {:induction false} RunPaced(events: seq<Event>, n: nat, start: real, burst: int)
    requires n <= |events| && ClockRuns(Fresh(start, burst), events, n, burst) && burst >= 1
    ensures Fair(Run(Fresh(start, burst), events, n, burst), burst, Ahead(Fresh(start, burst), events, n, burst))
  {
    if n > 0 {
      RunPaced(events, n - 1, start, burst);
      var s, ahead := Run(Fresh(start, burst), events, n - 1, burst), Ahead(Fresh(start, burst), events, n - 1, burst);
      match events[n - 1]
      case Wait(now) => WaitFair(s, now, burst, ahead);
      case Allow(now) => AllowFair(s, now, burst, ahead);
      case Abandon(i) =>
        if i < |s.callers| && !s.callers[i].abandoned {
          AbandonFair(s, i, burst, ahead);
        }
    }
  }

  predicate Passes(c: Caller, from: real, to: real) {
    !c.abandoned && from < c.due <= to
  }

  /** The callers that pass are among those standing from the first of them to the last. */
  ghost predicate Spans(callers: seq<Caller>, n: nat, from: real, to: real, i: nat, j: nat)
    requires n <= |callers|
  {
    i <= j < n && Passes(callers[i], from, to) && Passes(callers[j], from, to)
    && Passed(callers, n, from, to) <= Standing(callers, j + 1) - Standing(callers, i)
  }

  lemma {:induction false} StandingGrows(callers: seq<Caller>, m: nat, n: nat)
    requires m <= n <= |callers|
    ensures Standing(callers, m) <= Standing(callers, n)
  {
    if m < n {
      StandingGrows(callers, m, n - 1);
    }
  }

  lemma {:induction false} PassedSpan(callers: seq<Caller>, n: nat, from: real, to: real)
    requires n <= |callers|
    ensures Passed(callers, n, from, to) == 0 || exists i: nat, j: nat :: Spans(callers, n, from, to, i, j)
  {
    if n > 0 {
      PassedSpan(callers, n - 1, from, to);
      if Passed(callers, n - 1, from, to) > 0 {
        var i: nat, j: nat :| Spans(callers, n - 1, from, to, i, j);
        StandingGrows(callers, j + 1, n - 1);
        assert Spans(callers, n, from, to, i, if Passes(callers[n - 1], from, to) then n - 1 else j);
      } else if Passes(callers[n - 1], from, to) {
        assert Spans(callers, n, from, to, n - 1, n - 1);
      }
    }
  }

  /** Any window: no window of any length lets more callers pass than the burst, one for every interval in it, and one for
      every wait given up so far ahead of another. Where waits are given up only from the back of the line, or not at
      all, that is the burst and the intervals. */
  lemma {:induction false} WindowsAreBounded(events: seq<Event>, start: real, from: real, to: real, burst: int)
    requires ClockRuns(Fresh(start, burst), events, |events|, burst) && from <= to && burst >= 1
    ensures var callers := Run(Fresh(start, burst), events, |events|, burst).callers;
            var ahead := Ahead(Fresh(start, burst), events, |events|, burst);
            Passed(callers, |callers|, from, to) as real <= (burst + ahead) as real + (to - from)
  {
    RunPaced(events, |events|, start, burst);
    var callers := Run(Fresh(start, burst), events, |events|, burst).callers;
    var slack := burst + Ahead(Fresh(start, burst), events, |events|, burst);
    PassedSpan(callers, |callers|, from, to);
    if Passed(callers, |callers|, from, to) > 0 {
      var i: nat, j: nat :| Spans(callers, |callers|, from, to, i, j);
      assert if i == j then Standing(callers, j + 1) - Standing(callers, i) == 1 else SpacedTo(callers, i, j, slack);
    }
  }

  // ---- and the bound is used up ----

  /** Since the bucket was last full every token earned has gone to a caller: those from the m-th on, none of them due
      before that. */
  ghost predicate SpentSince(s: State, m: nat, full: real, burst: int) {
    m <= |s.callers| && full <= s.bucket.last && s.bucket.tokens <= burst as real
    && s.bucket.tokens == burst as real + (s.bucket.last - full) - (|s.callers| - m) as real
    && (forall i :: m <= i < |s.callers| ==> s.callers[i].due >= full)
    && forall i :: 0 <= i < |s.callers| ==> !s.callers[i].abandoned && s.callers[i].due <= s.bucket.last + Delay(s.bucket)
  }

  lemma {:induction false} RefillSpent(s: State, now: real, m: nat, full: real, burst: int) returns (m': nat, full': real)
    requires SpentSince(s, m, full, burst) && now >= s.bucket.last && burst >= 1
    ensures SpentSince(State(Refilled(s.bucket, now, burst), s.callers), m', full', burst)
  {
    if s.bucket.tokens + (now - s.bucket.last) > burst as real {
      m', full' := |s.callers|, now;
    } else {
      m', full' := m, full;
    }
  }

  lemma {:induction false} SpendSpent(s: State, m: nat, full: real, burst: int)
    requires SpentSince(s, m, full, burst) && burst >= 1
    ensures var level := s.bucket.(tokens := s.bucket.tokens - 1.0);
            SpentSince(State(level, s.callers + [Caller(level.last + Delay(level), false)]), m, full, burst)
  {
  }

  lemma {:induction false} StepSpent(s: State, e: Event, m: nat, full: real, burst: int) returns (m': nat, full': real)
    requires SpentSince(s, m, full, burst) && !e.Abandon? && e.now >= s.bucket.last && burst >= 1
    ensures SpentSince(Step(s, e, burst), m', full', burst)
  {
    m', full' := RefillSpent(s, e.now, m, full, burst);
    SpendSpent(State(Refilled(s.bucket, e.now, burst), s.callers), m', full', burst);
  }

  lemma {:induction false} RunSpent(events: seq<Event>, n: nat, start: real, burst: int) returns (m: nat, full: real)
    requires n <= |events| && ClockRuns(Fresh(start, burst), events, n, burst) && burst >= 1
    requires forall i :: 0 <= i < n ==> !events[i].Abandon?
    ensures SpentSince(Run(Fresh(start, burst), events, n, burst), m, full, burst)
  {
    m, full := 0, start;
    if n > 0 {
      m, full := RunSpent(events, n - 1, start, burst);
      m, full := StepSpent(Run(Fresh(start, burst), events, n - 1, burst), events[n - 1], m, full, burst);
    }
  }

  lemma {:induction false} AllPass(callers: seq<Caller>, m: nat, n: nat, from: real, to: real)
    requires m <= n <= |callers| && forall i :: m <= i < n ==> Passes(callers[i], from, to)
    ensures Passed(callers, n, from, to) >= n - m
  {
    if m < n {
      AllPass(callers, m, n - 1, from, to);
    }
  }

  /** Some window up to an instant has no room for one caller more: it would pass more than the burst and one for every
      interval. */
  ghost predicate UsedUp(callers: seq<Caller>, until: real, burst: int) {
    exists from: real :: from < until
                         && Passed(callers, |callers|, from, until) as real + 1.0 > burst as real + (until - from)
  }

  /** The line since the bucket was full uses up a window, when by an instant all of it has passed and fewer than one more
      token is earned. */
  lemma {:induction false} LineUsesUp(callers: seq<Caller>, m: nat, full: real, until: real, burst: int)
    requires m <= |callers| && full <= until && burst as real + (until - full) < (|callers| - m) as real + 1.0
    requires forall i :: m <= i < |callers| ==> !callers[i].abandoned && full <= callers[i].due <= until
    ensures UsedUp(callers, until, burst)
  {
    var spare := (|callers| - m) as real + 1.0 - (burst as real + (until - full));
    var from := full - spare / 2.0;
    AllPass(callers, m, |callers|, from, until);
    assert from < until && Passed(callers, |callers|, from, until) as real + 1.0 > burst as real + (until - from);
  }

  predicate OnlyAllows(events: seq<Event>) {
    forall i :: 0 <= i < |events| ==> events[i].Allow?
  }

  ghost predicate DueBy(callers: seq<Caller>, until: real) {
    forall i :: 0 <= i < |callers| ==> callers[i].due <= until
  }

  lemma {:induction false} AllowsAreDue(events: seq<Event>, n: nat, start: real, burst: int)
    requires n <= |events| && ClockRuns(Fresh(start, burst), events, n, burst) && OnlyAllows(events)
    ensures DueBy(Run(Fresh(start, burst), events, n, burst).callers, Run(Fresh(start, burst), events, n, burst).bucket.last)
  {
    if n > 0 {
      AllowsAreDue(events, n - 1, start, burst);
      assert events[n - 1].Allow?;
    }
  }

  /** Where callers only ask and never queue, the bound is exact: one who asks is turned away if and only if letting it
      through would break the bound of some window up to then. */
  lemma {:induction false} RefusedExactly(events: seq<Event>, start: real, now: real, burst: int)
    requires OnlyAllows(events) && ClockRuns(Fresh(start, burst), events, |events|, burst) && burst >= 1
    requires Run(Fresh(start, burst), events, |events|, burst).bucket.last <= now
    ensures var s := Run(Fresh(start, burst), events, |events|, burst);
            Step(s, Allow(now), burst).callers == s.callers <==> UsedUp(s.callers, now, burst)
  {
    var s := Run(Fresh(start, burst), events, |events|, burst);
    if Step(s, Allow(now), burst).callers == s.callers {
      var m, full := RunSpent(events, |events|, start, burst);
      AllowsAreDue(events, |events|, start, burst);
      LineUsesUp(s.callers, m, full, now, burst);
    } else {
      AllowedHasRoom(events, start, now, burst);
    }
  }

  lemma {:induction false} AllowedHasRoom(events: seq<Event>, start: real, now: real, burst: int)
    requires OnlyAllows(events) && ClockRuns(Fresh(start, burst), events, |events|, burst) && burst >= 1
    requires Run(Fresh(start, burst), events, |events|, burst).bucket.last <= now
    ensures var s := Run(Fresh(start, burst), events, |events|, burst);
            Step(s, Allow(now), burst).callers == s.callers || !UsedUp(s.callers, now, burst)
  {
    var s := Run(Fresh(start, burst), events, |events|, burst);
    var n, more := |events|, events + [Allow(now)];
    RunsAlike(events, more, n, start, burst);
    var after := Run(Fresh(start, burst), more, n + 1, burst);
    if after.callers != s.callers {
      forall from: real | from < now
        ensures Passed(s.callers, |s.callers|, from, now) as real + 1.0 <= burst as real + (now - from)
      {
        NeverAhead(more, n + 1, start, burst);
        WindowsAreBounded(more, start, from, now, burst);
        PassedAppend(s.callers, Caller(now, false), |s.callers|, from, now);
      }
    }
  }

  lemma {:induction false} RunsAlike(events: seq<Event>, more: seq<Event>, n: nat, start: real, burst: int)
    requires n <= |events| && n <= |more| && forall i :: 0 <= i < n ==> events[i] == more[i]
    ensures Run(Fresh(start, burst), events, n, burst) == Run(Fresh(start, burst), more, n, burst)
    ensures ClockRuns(Fresh(start, burst), events, n, burst) == ClockRuns(Fresh(start, burst), more, n, burst)
  {
    if n > 0 {
      RunsAlike(events, more, n - 1, start, burst);
    }
  }

  lemma {:induction false} NeverAhead(events: seq<Event>, n: nat, start: real, burst: int)
    requires n <= |events| && forall i :: 0 <= i < n ==> !events[i].Abandon?
    ensures Ahead(Fresh(start, burst), events, n, burst) == 0
  {
    if n > 0 {
      NeverAhead(events, n - 1, start, burst);
    }
  }

  lemma {:induction false} PassedAppend(callers: seq<Caller>, c: Caller, n: nat, from: real, to: real)
    requires n <= |callers|
    ensures Passed(callers + [c], n, from, to) == Passed(callers, n, from, to)
  {
    if n > 0 {
      PassedAppend(callers, c, n - 1, from, to);
    }
  }

  /** The callers that pass by an instant are more than the bound of some window that ends earlier. */
  ghost predicate Overfull(callers: seq<Caller>, until: real, early: real, burst: int) {
    exists from: real :: from < early && Passed(callers, |callers|, from, until) as real > burst as real + (early - from)
  }

  lemma {:induction false} LineOverfills(callers: seq<Caller>, m: nat, full: real, until: real, early: real, burst: int)
    requires m <= |callers| && full <= early < until && (|callers| - m) as real == burst as real + (until - full)
    requires forall i :: m <= i < |callers| ==> !callers[i].abandoned && full <= callers[i].due <= until
    ensures Overfull(callers, until, early, burst)
  {
    var from := full - (until - early) / 2.0;
    AllPass(callers, m, |callers|, from, until);
    assert from < early && Passed(callers, |callers|, from, until) as real > burst as real + (early - from);
  }

  /** And one who queues, where nobody gives up, waits no longer than it must: it passes at once, or at the first instant
      at which it and those ahead of it do not break the bound of some window. */
  lemma {:induction false} WaitsNoLonger(events: seq<Event>, start: real, now: real, burst: int)
    requires ClockRuns(Fresh(start, burst), events, |events|, burst) && burst >= 1
    requires forall i :: 0 <= i < |events| ==> !events[i].Abandon?
    requires Run(Fresh(start, burst), events, |events|, burst).bucket.last <= now
    ensures var s := Run(Fresh(start, burst), events, |events|, burst);
            var after := Step(s, Wait(now), burst);
            after.callers == s.callers + [after.callers[|s.callers|]]
            && !after.callers[|s.callers|].abandoned && after.callers[|s.callers|].due >= now
            && forall early: real :: now <= early < after.callers[|s.callers|].due ==>
                 Overfull(after.callers, after.callers[|s.callers|].due, early, burst)
  {
    var s := Run(Fresh(start, burst), events, |events|, burst);
    var after := Step(s, Wait(now), burst);
    var m, full := RunSpent(events, |events|, start, burst);
    m, full := StepSpent(s, Wait(now), m, full, burst);
    var due := after.callers[|s.callers|].due;
    forall early: real | now <= early < due ensures Overfull(after.callers, due, early, burst) {
      LineOverfills(after.callers, m, full, due, early, burst);
    }
  }

  const BUNCH: seq<Event> := [Wait(0.0), Wait(0.0), Wait(0.0), Abandon(1), Wait(0.5)]

  /** One given up ahead of another does break the narrower bound: with a burst of one, three wait at 0, the second gives
      up at once, and one who comes half an interval later is due at the same instant as the third. Two pass within half
      an interval, which should let one. */
  lemma {:induction false} AbandonedWaitsBunch()
    ensures var callers := Run(Fresh(0.0, 1), BUNCH, 5, 1).callers;
            |callers| == 4 && callers[2] == callers[3] == Caller(2.0, false)
            && Passed(callers, 4, 1.5, 2.0) == 2
  {
    Bunched(Fresh(0.0, 1), BUNCH, |BUNCH|, 1);
    TwoPass(Caller(0.0, false), Caller(1.0, true), Caller(2.0, false));
  }

  lemma {:induction false} Bunched(s: State, events: seq<Event>, n: nat, burst: int)
    requires s == State(Level(1.0, 0.0), []) && burst == 1 && n == 5 <= |events|
    requires events[n - 5] == events[n - 4] == events[n - 3] == Wait(0.0)
    requires events[n - 2] == Abandon(1) && events[n - 1] == Wait(0.5)
    ensures Run(s, events, n, burst)
         == State(Level(-1.5, 0.5), [Caller(0.0, false), Caller(1.0, true), Caller(2.0, false), Caller(2.0, false)])
  {
    var c0, c1, c2 := Caller(0.0, false), Caller(1.0, false), Caller(2.0, false);
    var three := [c0] + [c1] + [c2];
    var left := three[1 := Caller(1.0, true)];
    WaitRuns(s, events, n - 5, burst, s, 0.0, State(Level(0.0, 0.0), [] + [c0]));
    assert [] + [c0] == [c0];
    WaitRuns(s, events, n - 4, burst, State(Level(0.0, 0.0), [c0]), 0.0, State(Level(-1.0, 0.0), [c0] + [c1]));
    WaitRuns(s, events, n - 3, burst, State(Level(-1.0, 0.0), [c0] + [c1]), 0.0, State(Level(-2.0, 0.0), three));
    SecondLeaves(s, events, n - 2, burst, State(Level(-2.0, 0.0), three), State(Level(-1.0, 0.0), left));
    WaitRuns(s, events, n - 1, burst, State(Level(-1.0, 0.0), left), 0.5, State(Level(-1.5, 0.5), left + [c2]));
    assert left + [c2] == [c0, Caller(1.0, true), c2, c2];
  }

  lemma {:induction false} TwoPass(c0: Caller, c1: Caller, c2: Caller)
    requires c0.due <= 1.5 && c1.abandoned && c2 == Caller(2.0, false)
    ensures Passed([c0, c1, c2, c2], 4, 1.5, 2.0) == 2
  {
    var callers := [c0, c1, c2, c2];
    assert Passed(callers, 1, 1.5, 2.0) == 0 && Passed(callers, 2, 1.5, 2.0) == 0;
    assert Passed(callers, 3, 1.5, 2.0) == 1;
  }

  lemma {:induction false} WaitRuns(s: State, events: seq<Event>, n: nat, burst: int, before: State, now: real,
                                    after: State)
    requires n < |events| && events[n] == Wait(now) && Run(s, events, n, burst) == before
    requires after.bucket == Spent(before.bucket, now, burst)
    requires after.callers == before.callers + [Caller(now + Delay(after.bucket), false)]
    ensures Run(s, events, n + 1, burst) == after
  {
  }

  lemma {:induction false} SecondLeaves(s: State, events: seq<Event>, n: nat, burst: int, before: State, after: State)
    requires n < |events| && events[n] == Abandon(1) && Run(s, events, n, burst) == before
    requires |before.callers| > 1 && !before.callers[1].abandoned && after.bucket == GivenBack(before.bucket, burst)
    requires after.callers == before.callers[1 := before.callers[1].(abandoned := true)]
    ensures Run(s, events, n + 1, burst) == after
  {
  }
}
