// How long a list of releases may be used, on the server and on a device, and the framed entry it is cached in
// (internal/scout/handler.go).
module Freshness {
  import opened Common

  const PARTIAL_TTL: Time := MINUTE
  const MAX_STALE: Time := 2 * MINUTE
  const MAX_ON_ERROR: Time := HOUR
  const VIEWING_ROOM: Time := 6 * HOUR

  datatype Settings = Settings(listTtl: Time, ticketTtl: Time)

  predicate Sensible(s: Settings) {
    s.listTtl > 0 && s.ticketTtl > 0
  }

  function Seconds(t: Time): int { t / SECOND }

  function StaleWindow(s: Settings): Time { Min(s.listTtl, MAX_STALE) }

  function OnError(s: Settings): Time {
    Max(0, Min(MAX_ON_ERROR, s.ticketTtl - 3 * s.listTtl))
  }

  function OutageHold(s: Settings): Time {
    Max(OnError(s), s.ticketTtl - 3 * s.listTtl - VIEWING_ROOM)
  }

  // ---- what a device is told ----

  /** Cache-Control in seconds: how long a list is fresh, how long after that it may be used while a new one is fetched,
      and how long if fetching fails. */
  datatype Window = Window(maxAge: int, revalidate: int, onError: int)

  function Short(s: Settings): int {
    Min(Seconds(s.listTtl), Seconds(PARTIAL_TTL))
  }

  function Complete(s: Settings): Window {
    Window(Seconds(s.listTtl), Seconds(s.listTtl), Max(Seconds(OnError(s)), 0))
  }

  function Partial(s: Settings): Window { Window(Short(s), Short(s), 0) }

  function Stale(s: Settings): Window { Window(Short(s), 0, 0) }

  /** The last instant a device may use what it was given at `at`. */
  function LastUse(w: Window, at: Time): Time {
    at + (w.maxAge + Max(w.revalidate, w.onError)) * SECOND
  }

  /** When a ticket is dead: its expiry is sealed as a whole unix second, and that second is already too late
      (internal/scout/ticket.go). */
  function Dead(s: Settings, minted: Time): Time {
    Seconds(minted + s.ticketTtl) * SECOND
  }

  // ---- what the server keeps ----

  /** A cached list: complete or not, the unix second its freshness ends (0 when it is not complete), whether it lists
      anything, when its tickets were minted, and when it was put in the cache and for how long. */
  datatype Entry = Entry(complete: bool, freshUntil: int, nonempty: bool, minted: Time, put: Time, hold: Time)

  function Built(s: Settings, complete: bool, nonempty: bool, minted: Time, now: Time, put: Time): Entry {
    if complete then
      Entry(true, Seconds(now + s.listTtl), nonempty, minted, put, s.listTtl + Max(StaleWindow(s), OutageHold(s)))
    else
      Entry(false, 0, nonempty, minted, put, Min(PARTIAL_TTL, s.listTtl))
  }

  datatype Answer = Serve(window: Window) | Rebuild

  predicate Usable(s: Settings, e: Entry, now: Time) {
    now < e.freshUntil * SECOND + OutageHold(s)
  }

  /** What a request that finds the entry is answered. `outage` is whether a foreground build finds no indexer answering,
      now or a moment ago. */
  function Hit(s: Settings, e: Entry, now: Time, outage: bool): Answer {
    if !e.complete then Serve(Partial(s))
    else if e.freshUntil > 0 && Seconds(now) >= e.freshUntil + Seconds(StaleWindow(s)) then
      if Usable(s, e, now) && (e.nonempty || outage) then Serve(Stale(s)) else Rebuild
    else if e.freshUntil > 0 && Seconds(now) >= e.freshUntil then Serve(Stale(s))
    else Serve(Complete(s))
  }

  /** A cache hit: an entry is gone only once the clock is past its expiry. */
  predicate InCache(e: Entry, now: Time) {
    e.put <= now <= e.put + e.hold
  }

  /** What a request that finds a cached list is answered, exactly: a list that is not complete is partial; a complete one
      is fresh until its second, and stale from then on for another list lifetime or two minutes; then for as long as the
      outage hold it is stale if it lists anything, or no indexer answers, and else rebuilt. */
  lemma {:induction false} AnswersExactly(s: Settings, complete: bool, nonempty: bool, minted: Time, built: Time, put: Time,
                                          now: Time, outage: bool)
    requires s.listTtl > 0 && built + s.listTtl >= SECOND
    ensures var answer := Hit(s, Built(s, complete, nonempty, minted, built, put), now, outage);
            var until := (built + s.listTtl) / SECOND * SECOND;
            if !complete then answer == Serve(Partial(s))
            else if now < until then answer == Serve(Complete(s))
            else if now / SECOND < until / SECOND + (if s.listTtl < 2 * MINUTE then s.listTtl else 2 * MINUTE) / SECOND
                    || (now < until + OutageHold(s) && (nonempty || outage)) then answer == Serve(Stale(s))
            else answer == Rebuild
  {
  }

  // ---- tickets outlive lists ----

  lemma {:induction false} Floors(t: Time)
    ensures Seconds(t) * SECOND <= t < Seconds(t) * SECOND + SECOND
  {
  }

  /** A list is built after its tickets are minted and cached after it is built. */
  predicate Ordered(s: Settings, minted: Time, built: Time, put: Time) {
    Sensible(s) && 0 <= minted <= built <= put && built + s.listTtl >= SECOND
  }

  /** And cached while it is fresh. */
  predicate Timely(s: Settings, minted: Time, built: Time, put: Time) {
    Ordered(s, minted, built, put) && put < Seconds(built + s.listTtl) * SECOND
  }

  /** No use of the cached list that the server's hold and any header allow comes when its tickets are dead: of a fresh
      list, a stale one, a partial one, a stale_list, or one used because fetching failed. */
  ghost predicate TicketsOutlive(s: Settings, e: Entry) {
    forall now: Time, outage: bool :: InCache(e, now) && Hit(s, e, now, outage).Serve? ==>
      LastUse(Hit(s, e, now, outage).window, now) < Dead(s, e.minted)
  }

  /** The last use of the last fresh hit, of the last stale_list, and of the last partial one. */
  function LastFresh(s: Settings, built: Time): Time {
    LastUse(Complete(s), Seconds(built + s.listTtl) * SECOND - 1)
  }

  function LastHeld(s: Settings, built: Time): Time {
    LastUse(Stale(s), Seconds(built + s.listTtl) * SECOND + OutageHold(s) - 1)
  }

  function LastPartial(s: Settings, put: Time): Time {
    LastUse(Partial(s), put + Min(PARTIAL_TTL, s.listTtl))
  }

  /** Exactly when tickets outlive the complete list they came in, for any lifetimes: both its last uses come in time. */
  lemma {:induction false} CompleteExactly(s: Settings, nonempty: bool, minted: Time, built: Time, put: Time)
    requires Timely(s, minted, built, put)
    ensures TicketsOutlive(s, Built(s, true, nonempty, minted, built, put))
            <==> LastFresh(s, built) < Dead(s, minted) && LastHeld(s, built) < Dead(s, minted)
  {
    var e := Built(s, true, nonempty, minted, built, put);
    forall now: Time, outage: bool | InCache(e, now) && Hit(s, e, now, outage).Serve?
      ensures LastUse(Hit(s, e, now, outage).window, now) <= Max(LastFresh(s, built), LastHeld(s, built))
    {
      HitsComeBefore(s, nonempty, minted, built, put, now, outage);
    }
    LastUsesHappen(s, nonempty, minted, built, put);
    var last, held := e.freshUntil * SECOND - 1, e.freshUntil * SECOND + OutageHold(s) - 1;
    assert Hit(s, e, last, true).Serve?;
    assert OutageHold(s) > 0 ==> Hit(s, e, held, true).Serve?;
  }

  lemma {:induction false} HitsComeBefore(s: Settings, nonempty: bool, minted: Time, built: Time, put: Time, now: Time,
                                          outage: bool)
    requires Timely(s, minted, built, put)
    requires Hit(s, Built(s, true, nonempty, minted, built, put), now, outage).Serve?
    ensures LastUse(Hit(s, Built(s, true, nonempty, minted, built, put), now, outage).window, now)
            <= Max(LastFresh(s, built), LastHeld(s, built))
  {
    Floors(now);
    Floors(s.listTtl);
    Floors(StaleWindow(s));
  }

  lemma {:induction false} LastUsesHappen(s: Settings, nonempty: bool, minted: Time, built: Time, put: Time)
    requires Timely(s, minted, built, put)
    ensures var e := Built(s, true, nonempty, minted, built, put);
            var last, held := e.freshUntil * SECOND - 1, e.freshUntil * SECOND + OutageHold(s) - 1;
            InCache(e, last) && Hit(s, e, last, true) == Serve(Complete(s))
            && (if OutageHold(s) > 0 then InCache(e, held) && Hit(s, e, held, true) == Serve(Stale(s))
                else LastHeld(s, built) <= LastFresh(s, built))
  {
    var e := Built(s, true, nonempty, minted, built, put);
    Floors(built + s.listTtl);
    Floors(s.listTtl);
    Floors(e.freshUntil * SECOND - 1);
    Floors(e.freshUntil * SECOND + OutageHold(s) - 1);
  }

  /** And the partial list they came in. */
  lemma {:induction false} PartialExactly(s: Settings, nonempty: bool, minted: Time, built: Time, put: Time)
    requires Ordered(s, minted, built, put)
    ensures TicketsOutlive(s, Built(s, false, nonempty, minted, built, put)) <==> LastPartial(s, put) < Dead(s, minted)
  {
    var e := Built(s, false, nonempty, minted, built, put);
    assert Hit(s, e, put + Min(PARTIAL_TTL, s.listTtl), true) == Serve(Partial(s));
  }

  predicate InSeconds(s: Settings) {
    s.listTtl % SECOND == 0 && s.ticketTtl % SECOND == 0
  }

  /** The seconds that begin between two instants. */
  function Ticks(from: Time, to: Time): int { Seconds(to) - Seconds(from) }

  /** As both lifetimes are set in whole seconds: where no more than a list lifetime passes between minting and building,
      tickets outlive a complete list if and only if they live three list lifetimes and the seconds that began in
      between; and a partial one if and only if they live longer than three of its lifetimes and the seconds that began
      between minting and caching. Three lifetimes alone are not enough. */
  lemma {:induction false} TicketsOutliveLists(s: Settings, nonempty: bool, minted: Time, built: Time, put: Time)
    requires Timely(s, minted, built, put) && InSeconds(s)
    ensures Ticks(minted, built) <= Seconds(s.listTtl) ==>
              (TicketsOutlive(s, Built(s, true, nonempty, minted, built, put))
               <==> Seconds(s.ticketTtl) >= 3 * Seconds(s.listTtl) + Ticks(minted, built))
    ensures TicketsOutlive(s, Built(s, false, nonempty, minted, built, put))
            <==> Seconds(s.ticketTtl) > 3 * Short(s) + Ticks(minted, put)
  {
    CompleteExactly(s, nonempty, minted, built, put);
    PartialExactly(s, nonempty, minted, built, put);
    PartialInSeconds(s, minted, put);
    if Ticks(minted, built) <= Seconds(s.listTtl) {
      WholeSecondUses(s, minted, built);
    }
  }

  lemma {:induction false} PlusSeconds(t: Time, d: Time)
    requires d % SECOND == 0
    ensures Seconds(t + d) == Seconds(t) + Seconds(d) && Seconds(d) * SECOND == d
  {
  }

  lemma {:induction false} BeforeSecond(n: int, m: int)
    ensures n * SECOND - 1 < m * SECOND <==> n <= m
  {
  }

  lemma {:induction false} FreshInSeconds(s: Settings, minted: Time, built: Time)
    requires InSeconds(s)
    ensures LastFresh(s, built) < Dead(s, minted)
            <==> Ticks(minted, built) + 2 * Seconds(s.listTtl) + Max(Seconds(s.listTtl), Seconds(OnError(s)))
                 <= Seconds(s.ticketTtl)
  {
    PlusSeconds(minted, s.ticketTtl);
    PlusSeconds(built, s.listTtl);
    Floors(OnError(s));
    var ttl := Seconds(s.listTtl);
    BeforeSecond(Seconds(built) + 2 * ttl + Max(ttl, Seconds(OnError(s))), Seconds(minted) + Seconds(s.ticketTtl));
  }

  lemma {:induction false} SecondsOf(n: int)
    ensures Seconds(n * SECOND) == n
  {
  }

  lemma {:induction false} HoldInSeconds(s: Settings)
    requires Sensible(s) && InSeconds(s)
    ensures Seconds(OutageHold(s)) * SECOND == OutageHold(s) && Short(s) >= 0
  {
    WholeSeconds(s.listTtl);
    WholeSeconds(s.ticketTtl);
    var left := Seconds(s.ticketTtl) - 3 * Seconds(s.listTtl);
    assert s.ticketTtl - 3 * s.listTtl == left * SECOND;
    var hold := Max(Max(0, Min(3600, left)), left - 6 * 3600);
    assert OutageHold(s) == hold * SECOND;
    SecondsOf(hold);
  }

  lemma {:induction false} HeldInSeconds(s: Settings, minted: Time, built: Time)
    requires Sensible(s) && InSeconds(s)
    ensures LastHeld(s, built) < Dead(s, minted)
            <==> Ticks(minted, built) + Seconds(s.listTtl) + Seconds(OutageHold(s)) + Short(s) <= Seconds(s.ticketTtl)
  {
    PlusSeconds(minted, s.ticketTtl);
    PlusSeconds(built, s.listTtl);
    HoldInSeconds(s);
    var last := Seconds(built) + Seconds(s.listTtl) + Seconds(OutageHold(s)) + Short(s);
    assert LastHeld(s, built) == last * SECOND - 1;
    BeforeSecond(last, Seconds(minted) + Seconds(s.ticketTtl));
  }

  lemma {:induction false} PartialInSeconds(s: Settings, minted: Time, put: Time)
    requires Sensible(s) && InSeconds(s)
    ensures LastPartial(s, put) < Dead(s, minted) <==> Seconds(s.ticketTtl) > 3 * Short(s) + Ticks(minted, put)
  {
    PlusSeconds(minted, s.ticketTtl);
    PlusSeconds(0, s.listTtl);
    Floors(put);
    assert LastPartial(s, put) == put + 3 * Short(s) * SECOND;
  }

  /** The windows past freshness fit in what is left of a ticket's life. */
  lemma {:induction false} WindowsFit(s: Settings)
    requires Sensible(s) && InSeconds(s)
    ensures Seconds(OnError(s)) <= Max(0, Seconds(s.ticketTtl) - 3 * Seconds(s.listTtl))
    ensures Seconds(OutageHold(s)) <= Max(0, Seconds(s.ticketTtl) - 3 * Seconds(s.listTtl))
    ensures Short(s) <= Seconds(s.listTtl)
  {
    PlusSeconds(0, s.listTtl);
    PlusSeconds(0, s.ticketTtl);
    Floors(OnError(s));
    Floors(OutageHold(s));
  }

  lemma {:induction false} WholeSecondUses(s: Settings, minted: Time, built: Time)
    requires Sensible(s) && InSeconds(s) && 0 <= Ticks(minted, built) <= Seconds(s.listTtl)
    ensures LastFresh(s, built) < Dead(s, minted) && LastHeld(s, built) < Dead(s, minted)
            <==> Seconds(s.ticketTtl) >= 3 * Seconds(s.listTtl) + Ticks(minted, built)
  {
    FreshInSeconds(s, minted, built);
    HeldInSeconds(s, minted, built);
    WindowsFit(s);
  }

  /** Lists of five minutes, tickets of fifteen, or a second more so that nothing warns of it: with ten seconds between
      minting and caching, a device may use what it was given at 309 s until 909 s. */
  lemma {:induction false} DeadOnAGap(ticketTtl: Time)
    requires ticketTtl == 900 * SECOND || ticketTtl == 901 * SECOND
    ensures var s := Settings(300 * SECOND, ticketTtl);
            var e := Built(s, true, true, 0, 10 * SECOND, 10 * SECOND);
            var now := 309 * SECOND;
            Timely(s, 0, 10 * SECOND, 10 * SECOND) && InCache(e, now) && Hit(s, e, now, false) == Serve(Complete(s))
            && LastUse(Complete(s), now) == 909 * SECOND > Dead(s, 0)
  {
  }

  /** Lists of a minute, tickets of three minutes and a second, so that nothing warns of it: when a second begins just
      after the tickets are minted, a partial list cached in its first instant may be used when they are dead. */
  lemma {:induction false} DeadOnATick()
    ensures var s := Settings(MINUTE, 181 * SECOND);
            var minted, put := 10 * SECOND - 1, 10 * SECOND;
            var e := Built(s, false, true, minted, put, put);
            var now := put + MINUTE;
            Timely(s, minted, put, put) && s.ticketTtl > 3 * s.listTtl
            && InCache(e, now) && Hit(s, e, now, false) == Serve(Partial(s))
            && LastUse(Partial(s), now) == Dead(s, minted)
  {
  }

  /** Lists of a minute, tickets of three, all in one instant half a second into a second: a partial list given a minute
      later may be used half a second after its tickets are dead. */
  lemma {:induction false} DeadOnAFraction()
    ensures var s := Settings(MINUTE, 3 * MINUTE);
            var t := SECOND / 2;
            var e := Built(s, false, true, t, t, t);
            var now := t + MINUTE;
            Timely(s, t, t, t) && InCache(e, now) && Hit(s, e, now, false) == Serve(Partial(s))
            && LastUse(Partial(s), now) == Dead(s, t) + SECOND / 2
  {
  }

  /** For lifetimes of any length a second more on both sides is enough. */
  lemma {:induction false} ThreeLifetimesAndTheGap(s: Settings, complete: bool, nonempty: bool, minted: Time, built: Time,
                                                   put: Time)
    requires Timely(s, minted, built, put)
    requires put - minted + SECOND <= s.listTtl && 3 * s.listTtl + (put - minted) + SECOND <= s.ticketTtl
    ensures TicketsOutlive(s, Built(s, complete, nonempty, minted, built, put))
  {
    if complete {
      CompleteExactly(s, nonempty, minted, built, put);
    } else {
      PartialExactly(s, nonempty, minted, built, put);
    }
    Floors(minted + s.ticketTtl);
    Floors(built + s.listTtl);
    Floors(s.listTtl);
    Floors(OnError(s));
  }

  /** Room to watch: a stale_list served while the outage term rules the hold leaves its tickets six hours and two list
      lifetimes, less what passed between minting and stamping, and less a second when lifetimes are not whole ones. */
  lemma {:induction false} OutageLeavesRoomToWatch(s: Settings, nonempty: bool, minted: Time, built: Time, put: Time,
                                                   now: Time, outage: bool)
    requires Ordered(s, minted, built, put)
    requires s.ticketTtl - 3 * s.listTtl - VIEWING_ROOM >= OnError(s)
    requires var e := Built(s, true, nonempty, minted, built, put);
             Seconds(now) >= e.freshUntil + Seconds(StaleWindow(s)) && Hit(s, e, now, outage).Serve?
    ensures Dead(s, minted) - now > VIEWING_ROOM + 2 * s.listTtl - (built - minted) - SECOND
    ensures InSeconds(s) ==> Dead(s, minted) - now > VIEWING_ROOM + 2 * s.listTtl - Ticks(minted, built) * SECOND
  {
    Floors(built + s.listTtl);
    Floors(minted + s.ticketTtl);
    if InSeconds(s) {
      PlusSeconds(minted, s.ticketTtl);
      PlusSeconds(built, s.listTtl);
    }
  }

  /** Three is what it takes: for a list lifetime in whole seconds, a shorter-lived ticket is dead at the last use of the
      list it came in that the header allows. */
  lemma {:induction false} ThreeLifetimesAreNeeded(s: Settings, built: Time)
    requires Sensible(s) && s.listTtl % SECOND == 0 && built % SECOND == 0 && built >= 0
    requires s.ticketTtl < 3 * s.listTtl
    ensures var now := built + s.listTtl - 1;
            var e := Built(s, true, true, built, built, built);
            InCache(e, now) && Hit(s, e, now, false) == Serve(Complete(s))
            && LastUse(Complete(s), now) >= Dead(s, built)
  {
    var now := built + s.listTtl - 1;
    WholeSeconds(built + s.listTtl);
    WholeSeconds(s.listTtl);
    Floors(now);
    Floors(built + s.ticketTtl);
  }

  lemma {:induction false} WholeSeconds(t: Time)
    requires t % SECOND == 0
    ensures Seconds(t) * SECOND == t
  {
  }

  /** The cache holds an entry for as long as it may be served: the hold cuts no use short. */
  lemma {:induction false} HoldCoversEveryUse(s: Settings, nonempty: bool, minted: Time, built: Time, put: Time,
                                              now: Time, outage: bool)
    requires Ordered(s, minted, built, put) && now >= put
    requires Hit(s, Built(s, true, nonempty, minted, built, put), now, outage).Serve?
    ensures InCache(Built(s, true, nonempty, minted, built, put), now)
  {
    Floors(now);
    Floors(built + s.listTtl);
    Floors(StaleWindow(s));
  }

  /** A list known to be short, or stale, is never kept longer than a complete fresh one. */
  lemma {:induction false} ShortIsNeverLonger(s: Settings, at: Time)
    requires Sensible(s)
    ensures LastUse(Stale(s), at) <= LastUse(Partial(s), at) <= LastUse(Complete(s), at)
    ensures Built(s, false, true, 0, 0, 0).hold <= Built(s, true, true, 0, 0, 0).hold
  {
    Floors(s.listTtl);
  }

  // ---- the framed entry ----

  const NUL: char := '\0'
  const BAR: char := '|'

  /** Where a character first stands, or the end. */
  function IndexOf(v: string, c: char, i: nat): (k: nat)
    requires i <= |v|
    ensures i <= k <= |v| && (k < |v| ==> v[k] == c) && forall j :: i <= j < k ==> v[j] != c
    decreases |v| - i
  {
    if i == |v| || v[i] == c then i else IndexOf(v, c, i + 1)
  }

  function Decimal(n: nat): (d: string)
    ensures |d| > 0 && forall i :: 0 <= i < |d| ==> '0' <= d[i] <= '9'
  {
    if n < 10 then ['0' + n as char] else Decimal(n / 10) + ['0' + (n % 10) as char]
  }

  predicate Digits(d: string) {
    |d| > 0 && forall i :: 0 <= i < |d| ==> '0' <= d[i] <= '9'
  }

  function Value(d: string, n: nat): nat
    requires n <= |d| && forall i :: 0 <= i < |d| ==> '0' <= d[i] <= '9'
  {
    if n == 0 then 0 else Value(d, n - 1) * 10 + (d[n - 1] - '0') as nat
  }

  /** ParseInt of digits; anything else reads as 0. */
  function Parsed(d: string): nat {
    if Digits(d) then Value(d, |d|) else 0
  }

  datatype Framed = Framed(complete: bool, freshUntil: nat, etag: string, body: string)

  function Join(f: Framed): string {
    Flag(f) + ([NUL] + (f.etag + ([NUL] + f.body)))
  }

  function Flag(f: Framed): string {
    (if f.complete then "1" else "0") + (if f.freshUntil > 0 then [BAR] + Decimal(f.freshUntil) else "")
  }

  /** A string in two at its first separator. */
  datatype Cut = Whole | Cut(head: string, rest: string)

  function CutAt(v: string, c: char): Cut {
    var k := IndexOf(v, c, 0);
    if k == |v| then Whole else Cut(v[..k], v[k + 1..])
  }

  /** The first field: whether the list is complete, and the stamp, when there is one. */
  function ReadFlag(flag: string): (bool, nat) {
    match CutAt(flag, BAR)
    case Whole => (flag == "1", 0)
    case Cut(mark, stamp) => (mark == "1", Parsed(stamp))
  }

  /** Fewer than two separators is an entry of an older format: never complete. */
  function Split(v: string): Framed {
    match CutAt(v, NUL)
    case Whole => Framed(false, 0, "", v)
    case Cut(flag, rest) =>
      match CutAt(rest, NUL)
      case Whole => Framed(false, 0, flag, rest)
      case Cut(etag, body) => Framed(ReadFlag(flag).0, ReadFlag(flag).1, etag, body)
  }

  lemma {:induction false} ValuePrefix(a: string, b: string, n: nat)
    requires n <= |a| && Digits(a) && Digits(a + b)
    ensures Value(a + b, n) == Value(a, n)
  {
    if n > 0 {
      ValuePrefix(a, b, n - 1);
    }
  }

  lemma {:induction false} ParsesDecimal(n: nat)
    ensures Parsed(Decimal(n)) == n
  {
    var d := Decimal(n);
    if n < 10 {
      assert Value(d, 0) == 0;
    } else {
      var high, low := Decimal(n / 10), ['0' + (n % 10) as char];
      ParsesDecimal(n / 10);
      assert d == high + low;
      ValuePrefix(high, low, |high|);
    }
  }

  lemma {:induction false} CutFinds(head: string, c: char, rest: string)
    requires c !in head
    ensures CutAt(head + ([c] + rest), c) == Cut(head, rest)
  {
    var v := head + ([c] + rest);
    var k := IndexOf(v, c, 0);
    assert v[|head|] == c;
    assert forall j :: 0 <= j < |head| ==> v[j] == head[j];
    assert v[..|head|] == head && v[|head| + 1..] == rest;
  }

  lemma {:induction false} FlagReads(f: Framed)
    ensures NUL !in Flag(f) && ReadFlag(Flag(f)) == (f.complete, f.freshUntil)
  {
    var mark := if f.complete then "1" else "0";
    if f.freshUntil > 0 {
      CutFinds(mark, BAR, Decimal(f.freshUntil));
      ParsesDecimal(f.freshUntil);
      assert Flag(f) == mark + ([BAR] + Decimal(f.freshUntil));
    } else {
      assert Flag(f) == mark;
    }
  }

  /** What is cached is what is read back: for any entry whose tag has no separator in it, whatever its body holds. */
  lemma {:induction false} SplitInvertsJoin(f: Framed)
    requires NUL !in f.etag
    ensures Split(Join(f)) == f
  {
    FlagReads(f);
    CutFinds(Flag(f), NUL, f.etag + ([NUL] + f.body));
    CutFinds(f.etag, NUL, f.body);
  }

  /** And a list is taken for complete only if its entry says so in full: never by an entry cut short before its second
      separator, or of an older format. */
  lemma {:induction false} CompleteOnlyIfSaid(v: string)
    ensures Split(v).complete ==> exists i, j :: 0 < i < j < |v| && v[0] == '1' && v[i] == NUL && v[j] == NUL
  {
    var flag := CutAt(v, NUL);
    if flag.Cut? && Split(v).complete {
      var i := IndexOf(v, NUL, 0);
      var j := i + 1 + IndexOf(flag.rest, NUL, 0);
      assert v[i] == NUL && v[j] == flag.rest[j - i - 1] == NUL;
      assert flag.head == v[..i];
    }
  }
}
