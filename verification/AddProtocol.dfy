// One TorBox account's memory of what it has asked for, and the resolves, status reads and cancels that read and
// write it (internal/scout/stores.go).
//
// Every memory is a cache entry with a lifetime. The cache is ideal here: an entry is there until its lifetime has
// passed and is never evicted, and putting an entry for one nanosecond removes it. Resolves of one account run one
// at a time. What TorBox answers is arbitrary, and so is how long each answer takes.
module AddProtocol {
  import opened Common
  import Budget = AddBudget

  const ATTEMPT_TTL: Time := 90 * SECOND
  const REFUSAL_BACKOFF: Time := MINUTE
  const ADD_GIVE_UP: Time := 10 * MINUTE
  const UNKNOWN_OUTCOME_TTL: Time := 30 * MINUTE
  const RESOLVE_CACHE_TTL: Time := 6 * HOUR
  const TORRENT_MISS_TTL: Time := 15 * SECOND

  type Hash = string

  // ---- what is remembered ----

  datatype Entry<+T> = Entry(value: T, expires: Time)

  type Slot<T> = Option<Entry<T>>

  function Put<T>(value: T, now: Time, ttl: Time): Slot<T> {
    Some(Entry(value, now + ttl))
  }

  /** A cache hit: an entry is gone only once the clock is past its expiry. */
  predicate Live<T>(slot: Slot<T>, now: Time) {
    slot.Some? && now <= slot.value.expires
  }

  /** The torrent id of a pack and whether its file list came with it. */
  datatype Warm = Warm(id: int, listed: bool)

  /** What is remembered about one release. `unknown` holds unix seconds. */
  datatype Release = Release(
    attempt: Slot<bool>,
    unknown: Slot<int>,
    refused: Slot<bool>,
    id: Slot<int>,
    warm: Slot<Warm>,
    queued: Slot<int>,
    miss: Slot<bool>,
    queueMiss: Slot<bool>,
    ours: Slot<bool>)

  const BLANK := Release(None, None, None, None, None, None, None, None, None)

  /** An account: its releases, whether the service turned the account itself away, and the charges of its hour. */
  datatype Account = Account(releases: map<Hash, Release>, refused: Slot<bool>, stamps: seq<Time>)

  function Of(a: Account, h: Hash): Release {
    if h in a.releases then a.releases[h] else BLANK
  }

  function With(a: Account, h: Hash, r: Release): Account {
    a.(releases := a.releases[h := r])
  }

  /** The unknown-outcome stamp is live and older than the give-up. */
  predicate TooLong(r: Release, now: Time) {
    Live(r.unknown, now) && now - r.unknown.value.value * SECOND > ADD_GIVE_UP
  }

  /** An add of ours is out and still believable. */
  predicate Believable(r: Release, now: Time) {
    !TooLong(r, now) && Live(r.attempt, now)
  }

  predicate BackedOff(a: Account, h: Hash, now: Time) {
    Live(a.refused, now) || Live(Of(a, h).refused, now)
  }

  function NoteAttempt(r: Release, now: Time): Release {
    r.(attempt := Put(true, now, ATTEMPT_TTL), miss := None)
  }

  function Settle(r: Release): Release {
    r.(attempt := None, unknown := None)
  }

  function NoteUnknown(r: Release, now: Time): Release {
    if Live(r.unknown, now) then r else r.(unknown := Put(now / SECOND, now, UNKNOWN_OUTCOME_TTL))
  }

  function ForgetTorrent(r: Release): Release {
    r.(id := None, warm := None, ours := None)
  }

  function RecordRefusal(a: Account, h: Hash, account: bool, now: Time): Account {
    if account then a.(refused := Put(true, now, REFUSAL_BACKOFF))
    else With(a, h, Of(a, h).(refused := Put(true, now, REFUSAL_BACKOFF)))
  }

  function RecordRefusalFor(a: Account, h: Hash, account: bool, noAdd: bool, now: Time): Account {
    if noAdd && !account then a else RecordRefusal(a, h, account, now)
  }

  // ---- what is asked and answered ----

  datatype Target = Target(noAdd: bool, prefetch: bool, needFiles: bool)

  /** requestdl: `account` is a 401 or 403; everything that is neither a link, a 404 nor a refusal is "no link". */
  datatype LinkAnswer = Linked | LinkGone | LinkRefused(account: bool) | NoLink

  /** mylist by id: `picks` says whether the list holds a file for the target. */
  datatype ListAnswer = Listed(nonempty: bool) | ListGone | ListRefused(account: bool) | NoList

  /** The account listing, searched for a hash. */
  datatype LookupAnswer = Found(id: int) | Missing | Unreadable

  datatype AddAnswer =
    | NotBuilt                    // the request could not be constructed, so nothing was sent
    | Lost(cancelled: bool)       // sent, and the transport failed
    | Unread(cancelled: bool)     // answered, and the body could not be read
    | Rejected(refused: bool, account: bool) // answered with an error: a refusal of us, of the account, or neither
    | AlreadyQueued(queued: int)  // answered with an error that names the account's own queue entry
    | NoId(nothing: bool)         // 2xx without an id; `nothing` when it proves no torrent was created
    | Created(id: int)
    | Parked(queued: int)

  /** The answers each call of one resolve would get. The last three serve the torrent just added or promoted. */
  datatype Answers = Answers(
    warmPicks: bool, warmLink: LinkAnswer,
    heldList: ListAnswer, heldPicks: bool, heldLink: LinkAnswer,
    lookup: LookupAnswer,
    clockSpent: bool, add: AddAnswer,
    lastList: ListAnswer, lastPicks: bool, lastLink: LinkAnswer)

  /** The clock at each burst of cache reads and writes of one resolve, in order. */
  datatype Clock = Clock(top: Time, warmed: Time, listed: Time, linked: Time, looked: Time, sent: Time,
                         answered: Time, relisted: Time, relinked: Time)

  predicate Ticks(c: Clock) {
    c.top <= c.warmed <= c.listed <= c.linked <= c.looked <= c.sent <= c.answered <= c.relisted <= c.relinked
  }

  datatype Outcome =
    | Link
    | Unavailable  // the service refused, now or a moment ago
    | Busy         // scout refused: its budget or its clock
    | Coming       // an add of ours is out and unanswered
    | Waiting      // accepted, and parked behind the account's slots
    | WouldAdd     // only an add could resolve it, and the caller forbade one
    | Gone         // the service has no such torrent
    | WrongPack    // the pack holds other episodes
    | Dead
    | Failed       // the transport failed

  /** What a run does that matters outside the cache, by what a torrent is remembered under: an add sent (`counts`
      unless the service answered that it created nothing), a remembered torrent the service said is gone, a torrent
      the user cancelled. */
  datatype Event = Sent(key: string, at: Time, counts: bool) | Forgotten(key: string) | Cancelled(key: string)

  datatype Result = Result(account: Account, outcome: Outcome, events: seq<Event>)

  // ---- the steps ----

  /** torrentID: the id from the cache, else from the account listing, which settles any add in flight. */
  function LookUp(a: Account, h: Hash, answer: LookupAnswer, now: Time): (Account, Option<int>, bool) {
    var r := Of(a, h);
    if Live(r.id, now) then (a, Some(r.id.value.value), true)
    else if Live(r.miss, now) then (a, None, true)
    else match answer
      case Found(id) => (With(a, h, Settle(r.(id := Put(id, now, RESOLVE_CACHE_TTL)))), Some(id), true)
      case Missing => (With(a, h, r.(miss := Put(true, now, TORRENT_MISS_TTL))), None, true)
      case Unreadable => (a, None, false)
  }

  function RememberId(a: Account, h: Hash, id: int, now: Time): Account {
    With(a, h, Of(a, h).(id := Put(id, now, RESOLVE_CACHE_TTL)))
  }

  /** resolveHeldTorrent: list when an episode must be picked, remember the id, mint the link. */
  function Hold(a: Account, h: Hash, t: Target, id: int, list: ListAnswer, picks: bool, link: LinkAnswer,
                listed: Time, linked: Time): (Account, Outcome) {
    if t.needFiles && list.ListGone? then (a, Gone)
    else if t.needFiles && list.ListRefused? && list.account then
      (RecordRefusal(RememberId(a, h, id, listed), h, true, listed), Unavailable)
    else
      var full := t.needFiles && list == Listed(true);
      var warmed := if !t.needFiles || full
                    then With(a, h, Of(a, h).(warm := Put(Warm(id, full), listed, RESOLVE_CACHE_TTL))) else a;
      var b := RememberId(warmed, h, id, listed);
      if t.needFiles && !full then (b, Unavailable)
      else if !picks then (b, WrongPack)
      else match link
        case Linked => (b, Link)
        case LinkGone => (With(b, h, ForgetTorrent(Of(b, h))), Gone)
        case LinkRefused(account) => (RecordRefusalFor(b, h, account, t.noAdd, linked), Unavailable)
        case NoLink => (b, Dead)
  }

  /** The gates at the top of Resolve and its warm path: Some when they settle the resolve. */
  function Top(a: Account, h: Hash, t: Target, u: Answers, c: Clock): (Account, Option<Outcome>) {
    var r := Of(a, h);
    if Live(a.refused, c.top) then (a, Some(Unavailable))
    else if !t.noAdd && !Believable(r, c.top) && BackedOff(a, h, c.top) then (a, Some(Unavailable))
    else if Live(r.warm, c.top) && (!t.needFiles || r.warm.value.value.listed) then
      if !u.warmPicks then (a, Some(WrongPack))
      else if u.warmLink.Linked? then (a, Some(Link))
      else if u.warmLink.LinkRefused? then
        (RecordRefusalFor(a, h, u.warmLink.account, t.noAdd, c.warmed), Some(Unavailable))
      else (a, None)
    else (a, None)
  }

  /** Charging an add, from the account's own charges. */
  function Charge(a: Account, p: Budget.Policy, now: Time): Account {
    a.(stamps := Budget.Live(a.stamps, now - p.window) + [now])
  }

  predicate MayCharge(a: Account, p: Budget.Policy, prefetch: bool, now: Time) {
    |Budget.Live(a.stamps, now - p.window)| < Budget.Ceiling(p.limit, p.reserve, prefetch)
  }

  /** A charge refused still drops what has drained. */
  function Drain(a: Account, p: Budget.Policy, now: Time): Account {
    a.(stamps := Budget.Live(a.stamps, now - p.window))
  }

  function GiveBack(a: Account): Account {
    a.(stamps := Budget.Pop(a.stamps))
  }

  /** An add that went out and was never answered: uncertainty, not a refusal. */
  function AfterSilence(a: Account, h: Hash, answer: AddAnswer, now: Time): (Account, Outcome)
    requires answer.Lost? || answer.Unread?
  {
    var r := Of(a, h);
    if answer.Lost? then
      (if Live(r.attempt, now) then if answer.cancelled then a else With(a, h, NoteUnknown(r, now))
       else if answer.cancelled then a else RecordRefusal(a, h, false, now), Failed)
    else if TooLong(r, now) then
      (if Live(r.attempt, now) then a else RecordRefusal(a, h, false, now), Dead)
    else (if answer.cancelled then a else With(a, h, NoteUnknown(r, now)), Coming)
  }

  /** The torrent createtorrent just named. A `gone` about it is TorBox disagreeing with itself, and backs off. */
  function HoldNew(a: Account, h: Hash, t: Target, id: int, u: Answers, c: Clock): (Account, Outcome) {
    var (b, outcome) := Hold(a, h, t, id, u.lastList, u.lastPicks, u.lastLink, c.relisted, c.relinked);
    if outcome == Gone then (RecordRefusal(b, h, false, c.relinked), Dead) else (b, outcome)
  }

  function Park(a: Account, h: Hash, t: Target, queued: int, u: Answers, c: Clock): (Account, Outcome) {
    var b := With(a, h, Of(a, h).(ours := Put(true, c.answered, RESOLVE_CACHE_TTL),
                                  queued := Put(queued, c.answered, RESOLVE_CACHE_TTL)));
    if queued != 0 then (b, Waiting) else HoldNew(b, h, t, 0, u, c)
  }

  /** From the answered createtorrent on: the add attempt is settled first, whatever the answer says. */
  function AfterAnswer(a: Account, h: Hash, t: Target, u: Answers, c: Clock): (Account, Outcome)
    requires !u.add.NotBuilt? && !u.add.Lost? && !u.add.Unread?
  {
    var b := With(a, h, Settle(Of(a, h)));
    match u.add
    case Rejected(refused, account) =>
      (RecordRefusal(GiveBack(b), h, account, c.answered), if refused || account then Unavailable else Dead)
    case AlreadyQueued(queued) => Park(GiveBack(b), h, t, queued, u, c)
    case NoId(nothing) => (RecordRefusal(if nothing then GiveBack(b) else b, h, false, c.answered), Dead)
    case Created(id) =>
      HoldNew(With(b, h, Of(b, h).(ours := Put(true, c.answered, RESOLVE_CACHE_TTL))), h, t, id, u, c)
    case Parked(queued) => Park(b, h, t, queued, u, c)
  }

  predicate CreatedNothing(answer: AddAnswer) {
    answer.Rejected? || answer.AlreadyQueued? || answer == NoId(true)
  }

  /** What the add leads to once it is on the wire. */
  function AfterSending(a: Account, h: Hash, t: Target, u: Answers, c: Clock): (Account, Outcome)
    requires !u.add.NotBuilt?
  {
    if u.add.Lost? || u.add.Unread? then AfterSilence(a, h, u.add, c.answered) else AfterAnswer(a, h, t, u, c)
  }

  /** From the last gates before the add to the end of the resolve. */
  function Buy(p: Budget.Policy, a: Account, h: Hash, t: Target, u: Answers, c: Clock): Result {
    var r := Of(a, h);
    if TooLong(r, c.sent) then Result(a, Dead, [])
    else if Live(r.attempt, c.sent) then Result(a, Coming, [])
    else if BackedOff(a, h, c.sent) then Result(a, Unavailable, [])
    else if u.clockSpent then Result(a, Busy, [])
    else if !MayCharge(a, p, t.prefetch, c.sent) then Result(Drain(a, p, c.sent), Busy, [])
    else
      var charged := Charge(a, p, c.sent);
      if u.add.NotBuilt? then Result(RecordRefusal(GiveBack(charged), h, false, c.answered), Dead, [])
      else
        var noted := With(charged, h, NoteAttempt(r, c.sent));
        var (b, outcome) := AfterSending(noted, h, t, u, c);
        Result(b, outcome, [Sent(h, c.sent, !CreatedNothing(u.add))])
  }

  /** A parked add: ask, at the cost of a read, whether it has become a torrent. */
  function Promote(a: Account, h: Hash, t: Target, u: Answers, c: Clock): Result {
    var (b, id, _) := LookUp(a, h, u.lookup, c.looked);
    if id.None? then Result(b, if t.noAdd then WouldAdd else Waiting, [])
    else
      var unparked := With(b, h, Of(b, h).(queued := None));
      var (d, outcome) := Hold(unparked, h, t, id.value, u.lastList, u.lastPicks, u.lastLink, c.relisted, c.relinked);
      Result(d, outcome, if outcome == Gone && Of(d, h).id.None? then [Forgotten(h)] else [])
  }

  /** The part of Resolve after the torrent is known not to be held. */
  function Unheld(p: Budget.Policy, a: Account, h: Hash, t: Target, u: Answers, c: Clock): Result {
    if Live(Of(a, h).queued, c.linked) then Promote(a, h, t, u, c)
    else if t.noAdd then Result(a, WouldAdd, [])
    else Buy(p, a, h, t, u, c)
  }

  /** What a resolve tries before it looks for the torrent: the gates, the warm path, then the remembered id. The
      last part is whether that remembered torrent is gone, and so forgotten. */
  function Remembering(a: Account, h: Hash, t: Target, u: Answers, c: Clock): (Account, Option<Outcome>, bool) {
    var (b, settled) := Top(a, h, t, u, c);
    if settled.Some? || !Live(Of(b, h).id, c.warmed) then (b, settled, false)
    else
      var (d, outcome) := Hold(b, h, t, Of(b, h).id.value.value, u.heldList, u.heldPicks, u.heldLink, c.listed, c.linked);
      if outcome == Gone then (With(d, h, ForgetTorrent(Of(d, h))), None, true) else (d, Some(outcome), false)
  }

  /** One resolve. */
  function Resolve(p: Budget.Policy, a: Account, h: Hash, t: Target, u: Answers, c: Clock): Result {
    var (b, settled, gone) := Remembering(a, h, t, u, c);
    if settled.Some? then Result(b, settled.value, [])
    else
      var rest := Unheld(p, b, h, t, u, c);
      if gone then rest.(events := [Forgotten(h)] + rest.events) else rest
  }

  /** One uncached status read: a parked add is known; otherwise the listing, then TorBox's own queue, are asked. */
  function Status(a: Account, h: Hash, lookup: LookupAnswer, inQueue: LookupAnswer, now: Time): Account {
    if Live(Of(a, h).queued, now) then a
    else
      var (b, id, sure) := LookUp(a, h, lookup, now);
      if id.Some? || !sure || Live(Of(b, h).queueMiss, now) then b
      else match inQueue
        case Found(queued) => With(b, h, Of(b, h).(queued := Put(queued, now, RESOLVE_CACHE_TTL)))
        case Missing => With(b, h, Of(b, h).(queueMiss := Put(true, now, TORRENT_MISS_TTL)))
        case Unreadable => b
  }

  datatype EntryAnswer = NoEntry | Finished | Fetching(stalled: bool) | NoAnswer

  /** One cancel or reannounce: never of a torrent scout did not add, unless it is stalled, and never of a finished
      one. `deleted` is whether TorBox accepted the delete. */
  function Cancel(a: Account, h: Hash, reannounce: bool, lookup: LookupAnswer, entry: EntryAnswer, deleted: bool,
                  now: Time): (Account, seq<Event>)
  {
    var r := Of(a, h);
    if Live(r.queued, now) then
      if Live(r.ours, now) && !reannounce && deleted
      then (With(a, h, r.(queued := None, ours := None)), [Cancelled(h)])
      else (a, [])
    else
      var (b, id, _) := LookUp(a, h, lookup, now);
      if id.None? || entry.NoAnswer? || entry.Finished? then (b, [])
      else if entry.NoEntry? then (With(b, h, ForgetTorrent(Of(b, h))), [Forgotten(h)])
      else if (Live(Of(b, h).ours, now) || entry.stalled) && !reannounce && deleted then
        (With(b, h, ForgetTorrent(Of(b, h))), [Cancelled(h)])
      else (b, [])
  }

  // ---- runs ----

  datatype Op =
    | Poll(hash: Hash, target: Target, answers: Answers, clock: Clock)
    | Ask(hash: Hash, lookup: LookupAnswer, inQueue: LookupAnswer, now: Time)
    | Drop(hash: Hash, reannounce: bool, lookup: LookupAnswer, entry: EntryAnswer, deleted: bool, now: Time)

  function Begins(op: Op): Time { if op.Poll? then op.clock.top else op.now }

  function Ends(op: Op): Time { if op.Poll? then op.clock.relinked else op.now }

  function Step(p: Budget.Policy, a: Account, op: Op): (Account, seq<Event>) {
    match op
    case Poll(h, t, u, c) => var r := Resolve(p, a, h, t, u, c); (r.account, r.events)
    case Ask(h, lookup, inQueue, now) => (Status(a, h, lookup, inQueue, now), [])
    case Drop(h, reannounce, lookup, entry, deleted, now) => Cancel(a, h, reannounce, lookup, entry, deleted, now)
  }

  /** The account after the first n operations, and all that happened. */
  function Run(p: Budget.Policy, a: Account, ops: seq<Op>, n: nat): (Account, seq<Event>)
    requires n <= |ops|
  {
    if n == 0 then (a, []) else
      var (before, history) := Run(p, a, ops, n - 1);
      var (after, events) := Step(p, before, ops[n - 1]);
      (after, history + events)
  }

  /** The clock when the first n operations are over. */
  function ClockAt(ops: seq<Op>, n: nat, start: Time): Time
    requires n <= |ops|
  {
    if n == 0 then start else Ends(ops[n - 1])
  }

  /** The first n operations follow one another on a clock that never goes back. */
  ghost predicate WellTimed(ops: seq<Op>, n: nat, start: Time)
    requires n <= |ops|
  {
    n == 0 ||
    (WellTimed(ops, n - 1, start) && ClockAt(ops, n - 1, start) <= Begins(ops[n - 1])
     && (ops[n - 1].Poll? ==> Ticks(ops[n - 1].clock)))
  }

  // ---- licensed re-add ----

  /** Of the first n events: when this release was last sent, unless the torrent was since said to be gone or was
      cancelled. */
  function LastSent(history: seq<Event>, n: nat, h: Hash): Option<Time>
    requires n <= |history|
  {
    if n == 0 then None
    else if history[n - 1].key != h then LastSent(history, n - 1, h)
    else if history[n - 1].Sent? then Some(history[n - 1].at)
    else None
  }

  lemma {:induction false} LastSentPrefix(x: seq<Event>, y: seq<Event>, n: nat, h: Hash)
    requires n <= |x|
    ensures LastSent(x + y, n, h) == LastSent(x, n, h)
  {
    if n > 0 {
      LastSentPrefix(x, y, n - 1, h);
    }
  }

  predicate Until<T>(slot: Slot<T>, until: Time) {
    slot.Some? && slot.value.expires >= until
  }

  /** Some memory keeps this release from being sent at or before an instant. */
  ghost predicate Guarded(a: Account, h: Hash, until: Time) {
    var r := Of(a, h);
    Until(r.attempt, until) || Until(r.refused, until) || Until(a.refused, until) || Until(r.id, until)
    || Until(r.queued, until)
  }

  /** What a step over another release keeps of this one: all of it, and an account refusal is only ever replaced
      by one that lasts longer than `until`. */
  ghost predicate Apart(a: Account, b: Account, h: Hash, until: Time) {
    Of(b, h) == Of(a, h) && (b.refused == a.refused || Until(b.refused, until))
  }

  lemma {:induction false} LookUpApart(a: Account, g: Hash, answer: LookupAnswer, now: Time, h: Hash)
    requires g != h
    ensures var b := LookUp(a, g, answer, now).0; Of(b, h) == Of(a, h) && b.refused == a.refused
  {
  }

  lemma {:induction false} HoldApart(a: Account, g: Hash, t: Target, id: int, list: ListAnswer, picks: bool,
                                     link: LinkAnswer, listed: Time, linked: Time, h: Hash, until: Time)
    requires g != h && until <= listed + REFUSAL_BACKOFF && listed <= linked
    ensures Apart(a, Hold(a, g, t, id, list, picks, link, listed, linked).0, h, until)
  {
  }

  lemma {:induction false} TopApart(a: Account, g: Hash, t: Target, u: Answers, c: Clock, h: Hash, until: Time)
    requires g != h && until <= c.top + REFUSAL_BACKOFF && Ticks(c)
    ensures Apart(a, Top(a, g, t, u, c).0, h, until)
  {
  }

  lemma {:induction false} PromoteApart(a: Account, g: Hash, t: Target, u: Answers, c: Clock, h: Hash, until: Time)
    requires g != h && until <= c.top + REFUSAL_BACKOFF && Ticks(c)
    ensures Apart(a, Promote(a, g, t, u, c).account, h, until)
  {
    var (b, id, _) := LookUp(a, g, u.lookup, c.looked);
    LookUpApart(a, g, u.lookup, c.looked, h);
    if id.Some? {
      var d := With(b, g, Of(b, g).(queued := None));
      HoldApart(d, g, t, id.value, u.lastList, u.lastPicks, u.lastLink, c.relisted, c.relinked, h, until);
    }
  }

  lemma {:induction false} HoldNewApart(a: Account, g: Hash, t: Target, id: int, u: Answers, c: Clock, h: Hash,
                                        until: Time)
    requires g != h && until <= c.top + REFUSAL_BACKOFF && Ticks(c)
    ensures Apart(a, HoldNew(a, g, t, id, u, c).0, h, until)
  {
    HoldApart(a, g, t, id, u.lastList, u.lastPicks, u.lastLink, c.relisted, c.relinked, h, until);
  }

  lemma {:induction false} ParkApart(a: Account, g: Hash, t: Target, queued: int, u: Answers, c: Clock, h: Hash,
                                     until: Time)
    requires g != h && until <= c.top + REFUSAL_BACKOFF && Ticks(c)
    ensures Apart(a, Park(a, g, t, queued, u, c).0, h, until)
  {
    var b := With(a, g, Of(a, g).(ours := Put(true, c.answered, RESOLVE_CACHE_TTL),
                                  queued := Put(queued, c.answered, RESOLVE_CACHE_TTL)));
    HoldNewApart(b, g, t, 0, u, c, h, until);
  }

  lemma {:induction false} AfterAnswerApart(a: Account, g: Hash, t: Target, u: Answers, c: Clock, h: Hash, until: Time)
    requires g != h && until <= c.top + REFUSAL_BACKOFF && Ticks(c)
    requires !u.add.NotBuilt? && !u.add.Lost? && !u.add.Unread?
    ensures Apart(a, AfterAnswer(a, g, t, u, c).0, h, until)
  {
    var b := With(a, g, Settle(Of(a, g)));
    match u.add
    case AlreadyQueued(queued) => ParkApart(GiveBack(b), g, t, queued, u, c, h, until);
    case Created(id) =>
      var d := With(b, g, Of(b, g).(ours := Put(true, c.answered, RESOLVE_CACHE_TTL)));
      HoldNewApart(d, g, t, id, u, c, h, until);
    case Parked(queued) => ParkApart(b, g, t, queued, u, c, h, until);
    case _ =>
  }

  lemma {:induction false} BuyApart(p: Budget.Policy, a: Account, g: Hash, t: Target, u: Answers, c: Clock, h: Hash,
                                    until: Time)
    requires g != h && until <= c.top + REFUSAL_BACKOFF && Ticks(c)
    ensures Apart(a, Buy(p, a, g, t, u, c).account, h, until)
  {
    var charged := Charge(a, p, c.sent);
    var noted := With(charged, g, NoteAttempt(Of(a, g), c.sent));
    assert Of(charged, h) == Of(a, h);
    assert Apart(a, noted, h, until);
    if u.add.Lost? || u.add.Unread? {
      assert Apart(noted, AfterSilence(noted, g, u.add, c.answered).0, h, until);
    } else if !u.add.NotBuilt? {
      AfterAnswerApart(noted, g, t, u, c, h, until);
    }
  }

  lemma {:induction false} UnheldApart(p: Budget.Policy, a: Account, g: Hash, t: Target, u: Answers, c: Clock, h: Hash,
                                       until: Time)
    requires g != h && until <= c.top + REFUSAL_BACKOFF && Ticks(c)
    ensures Apart(a, Unheld(p, a, g, t, u, c).account, h, until)
  {
    PromoteApart(a, g, t, u, c, h, until);
    BuyApart(p, a, g, t, u, c, h, until);
  }

  lemma {:induction false} RememberingApart(a: Account, g: Hash, t: Target, u: Answers, c: Clock, h: Hash,
                                            until: Time)
    requires g != h && until <= c.top + REFUSAL_BACKOFF && Ticks(c)
    ensures Apart(a, Remembering(a, g, t, u, c).0, h, until)
  {
    TopApart(a, g, t, u, c, h, until);
    var (b, settled) := Top(a, g, t, u, c);
    if settled.None? && Live(Of(b, g).id, c.warmed) {
      HoldApart(b, g, t, Of(b, g).id.value.value, u.heldList, u.heldPicks, u.heldLink, c.listed, c.linked, h, until);
    }
  }

  lemma {:induction false} ResolveApart(p: Budget.Policy, a: Account, g: Hash, t: Target, u: Answers, c: Clock,
                                        h: Hash, until: Time)
    requires g != h && until <= c.top + REFUSAL_BACKOFF && Ticks(c)
    ensures Apart(a, Resolve(p, a, g, t, u, c).account, h, until)
  {
    RememberingApart(a, g, t, u, c, h, until);
    UnheldApart(p, Remembering(a, g, t, u, c).0, g, t, u, c, h, until);
  }

  lemma {:induction false} StatusApart(a: Account, g: Hash, lookup: LookupAnswer, inQueue: LookupAnswer, now: Time,
                                       h: Hash)
    requires g != h
    ensures var b := Status(a, g, lookup, inQueue, now); Of(b, h) == Of(a, h) && b.refused == a.refused
  {
    LookUpApart(a, g, lookup, now, h);
  }

  lemma {:induction false} CancelApart(a: Account, g: Hash, reannounce: bool, lookup: LookupAnswer, entry: EntryAnswer,
                                       deleted: bool, now: Time, h: Hash)
    requires g != h
    ensures var (b, events) := Cancel(a, g, reannounce, lookup, entry, deleted, now);
            Of(b, h) == Of(a, h) && b.refused == a.refused && forall e <- events :: e.key == g
  {
    LookUpApart(a, g, lookup, now, h);
  }

  lemma {:induction false} ResolveSays(p: Budget.Policy, a: Account, g: Hash, t: Target, u: Answers, c: Clock)
    ensures forall e <- Resolve(p, a, g, t, u, c).events :: e.key == g
  {
  }

  /** A step over one release leaves every other release alone. */
  lemma {:induction false} OthersUntouched(p: Budget.Policy, a: Account, op: Op, h: Hash, until: Time)
    requires op.hash != h && until <= Begins(op) + REFUSAL_BACKOFF && (op.Poll? ==> Ticks(op.clock))
    ensures Apart(a, Step(p, a, op).0, h, until)
    ensures forall e <- Step(p, a, op).1 :: e.key == op.hash
  {
    match op
    case Poll(g, t, u, c) =>
      ResolveApart(p, a, g, t, u, c, h, until);
      ResolveSays(p, a, g, t, u, c);
    case Ask(g, lookup, inQueue, now) => StatusApart(a, g, lookup, inQueue, now, h);
    case Drop(g, reannounce, lookup, entry, deleted, now) =>
      CancelApart(a, g, reannounce, lookup, entry, deleted, now, h);
  }

  lemma {:induction false} LookUpGuards(a: Account, h: Hash, answer: LookupAnswer, now: Time, until: Time)
    requires Guarded(a, h, until) && until <= now + REFUSAL_BACKOFF
    ensures Guarded(LookUp(a, h, answer, now).0, h, until)
  {
  }

  /** A hold that does not end Gone leaves the id behind, and one that does forgets the id or touches nothing. */
  lemma {:induction false} HoldGuards(a: Account, h: Hash, t: Target, id: int, list: ListAnswer, picks: bool,
                                      link: LinkAnswer, listed: Time, linked: Time, until: Time)
    requires until <= listed + REFUSAL_BACKOFF && listed <= linked
    ensures var (b, outcome) := Hold(a, h, t, id, list, picks, link, listed, linked);
            if outcome == Gone then b == a || Of(b, h).id.None? else Until(Of(b, h).id, until)
  {
  }

  lemma {:induction false} HoldNewGuards(a: Account, h: Hash, t: Target, id: int, u: Answers, c: Clock, until: Time)
    requires until <= c.relisted + REFUSAL_BACKOFF && Ticks(c)
    ensures Guarded(HoldNew(a, h, t, id, u, c).0, h, until)
  {
    HoldGuards(a, h, t, id, u.lastList, u.lastPicks, u.lastLink, c.relisted, c.relinked, until);
  }

  lemma {:induction false} RefusalGuards(a: Account, h: Hash, account: bool, now: Time, until: Time)
    requires until <= now + REFUSAL_BACKOFF
    ensures Guarded(RecordRefusal(a, h, account, now), h, until)
  {
  }

  lemma {:induction false} AfterAnswerGuards(a: Account, h: Hash, t: Target, u: Answers, c: Clock, until: Time)
    requires until <= c.answered + REFUSAL_BACKOFF && Ticks(c)
    requires !u.add.NotBuilt? && !u.add.Lost? && !u.add.Unread?
    ensures Guarded(AfterAnswer(a, h, t, u, c).0, h, until)
  {
    var b := With(a, h, Settle(Of(a, h)));
    match u.add
    case Rejected(_, account) => RefusalGuards(GiveBack(b), h, account, c.answered, until);
    case NoId(nothing) => RefusalGuards(if nothing then GiveBack(b) else b, h, false, c.answered, until);
    case AlreadyQueued(queued) => ParkGuards(GiveBack(b), h, t, queued, u, c, until);
    case Created(id) =>
      var d := With(b, h, Of(b, h).(ours := Put(true, c.answered, RESOLVE_CACHE_TTL)));
      HoldNewGuards(d, h, t, id, u, c, until);
    case Parked(queued) => ParkGuards(b, h, t, queued, u, c, until);
  }

  lemma {:induction false} ParkGuards(a: Account, h: Hash, t: Target, queued: int, u: Answers, c: Clock, until: Time)
    requires until <= c.answered + REFUSAL_BACKOFF && Ticks(c)
    ensures Guarded(Park(a, h, t, queued, u, c).0, h, until)
  {
    var b := With(a, h, Of(a, h).(ours := Put(true, c.answered, RESOLVE_CACHE_TTL),
                                  queued := Put(queued, c.answered, RESOLVE_CACHE_TTL)));
    HoldNewGuards(b, h, t, 0, u, c, until);
  }

  lemma {:induction false} SilenceGuards(a: Account, h: Hash, answer: AddAnswer, now: Time, until: Time)
    requires (answer.Lost? || answer.Unread?) && Guarded(a, h, until) && until <= now + REFUSAL_BACKOFF
    ensures Guarded(AfterSilence(a, h, answer, now).0, h, until)
  {
  }

  /** What a step from `a` to `b` must do for this release: nothing sent keeps every guard; a send happens only past
      them all, and leaves one that lasts a minute more. */
  ghost predicate Licenses(a: Account, b: Account, events: seq<Event>, h: Hash, until: Time, ends: Time) {
    if |events| == 0 then Guarded(a, h, until) ==> Guarded(b, h, until)
    else
      var last := events[|events| - 1];
      last.key == h && |events| <= 2
      && (last.Sent? ==> last.at <= ends && Guarded(b, h, last.at + MINUTE))
      && (|events| == 2 ==> events[0] == Forgotten(h))
      && (|events| == 1 && last.Sent? && Guarded(a, h, until) ==> until < last.at)
  }

  lemma {:induction false} BuyLicenses(p: Budget.Policy, a: Account, h: Hash, t: Target, u: Answers, c: Clock,
                                       until: Time)
    requires Ticks(c) && until <= c.top + MINUTE && !Live(Of(a, h).queued, c.linked) && !Live(Of(a, h).id, c.warmed)
    ensures var r := Buy(p, a, h, t, u, c); Licenses(a, r.account, r.events, h, until, c.relinked)
  {
    var charged := Charge(a, p, c.sent);
    var noted := With(charged, h, NoteAttempt(Of(a, h), c.sent));
    var sent := c.sent + MINUTE;
    assert Until(Of(noted, h).attempt, sent);
    if u.add.Lost? || u.add.Unread? {
      SilenceGuards(noted, h, u.add, c.answered, sent);
    } else if !u.add.NotBuilt? {
      AfterAnswerGuards(noted, h, t, u, c, sent);
    }
  }

  lemma {:induction false} PromoteLicenses(a: Account, h: Hash, t: Target, u: Answers, c: Clock, until: Time)
    requires Ticks(c) && until <= c.top + MINUTE && !Live(Of(a, h).id, c.warmed)
    ensures var r := Promote(a, h, t, u, c); Licenses(a, r.account, r.events, h, until, c.relinked)
  {
    var (b, id, _) := LookUp(a, h, u.lookup, c.looked);
    if id.None? {
      if Guarded(a, h, until) {
        LookUpGuards(a, h, u.lookup, c.looked, until);
      }
    } else {
      var d := With(b, h, Of(b, h).(queued := None));
      assert Until(Of(d, h).id, until);
      HoldGuards(d, h, t, id.value, u.lastList, u.lastPicks, u.lastLink, c.relisted, c.relinked, until);
    }
  }

  lemma {:induction false} UnheldLicenses(p: Budget.Policy, a: Account, h: Hash, t: Target, u: Answers, c: Clock,
                                          until: Time)
    requires Ticks(c) && until <= c.top + MINUTE && !Live(Of(a, h).id, c.warmed)
    ensures var r := Unheld(p, a, h, t, u, c);
            Licenses(a, r.account, r.events, h, until, c.relinked) && |r.events| <= 1
  {
    if Live(Of(a, h).queued, c.linked) {
      PromoteLicenses(a, h, t, u, c, until);
    } else {
      BuyLicenses(p, a, h, t, u, c, until);
    }
  }

  lemma {:induction false} TopGuards(a: Account, h: Hash, t: Target, u: Answers, c: Clock, until: Time)
    requires Ticks(c) && until <= c.top + MINUTE && Guarded(a, h, until)
    ensures Guarded(Top(a, h, t, u, c).0, h, until)
  {
  }

  lemma {:induction false} RememberingGuards(a: Account, h: Hash, t: Target, u: Answers, c: Clock, until: Time)
    requires Ticks(c) && until <= c.top + MINUTE
    ensures var (b, settled, gone) := Remembering(a, h, t, u, c);
            (Guarded(a, h, until) && !gone ==> Guarded(b, h, until))
            && (settled.None? ==> !Live(Of(b, h).id, c.warmed))
  {
    var (b, settled) := Top(a, h, t, u, c);
    if Guarded(a, h, until) {
      TopGuards(a, h, t, u, c, until);
    }
    if settled.None? && Live(Of(b, h).id, c.warmed) {
      HoldGuards(b, h, t, Of(b, h).id.value.value, u.heldList, u.heldPicks, u.heldLink, c.listed, c.linked, until);
    }
  }

  lemma {:induction false} ResolveLicenses(p: Budget.Policy, a: Account, h: Hash, t: Target, u: Answers, c: Clock,
                                           until: Time)
    requires Ticks(c) && until <= c.top + MINUTE
    ensures var r := Resolve(p, a, h, t, u, c); Licenses(a, r.account, r.events, h, until, c.relinked)
  {
    RememberingGuards(a, h, t, u, c, until);
    var (b, settled, _) := Remembering(a, h, t, u, c);
    if settled.None? {
      UnheldLicenses(p, b, h, t, u, c, until);
    }
  }

  lemma {:induction false} StepLicenses(p: Budget.Policy, a: Account, op: Op, until: Time)
    requires (op.Poll? ==> Ticks(op.clock)) && until <= Begins(op) + MINUTE
    ensures var (b, events) := Step(p, a, op); Licenses(a, b, events, op.hash, until, Ends(op))
  {
    match op
    case Poll(h, t, u, c) => ResolveLicenses(p, a, h, t, u, c, until);
    case Ask(h, lookup, _, now) => if Guarded(a, h, until) { LookUpGuards(a, h, lookup, now, until); }
    case Drop(h, _, lookup, _, _, now) => if Guarded(a, h, until) { LookUpGuards(a, h, lookup, now, until); }
  }

  /** Every send of the first n events comes more than a minute after the one before it for the same release, if
      between the two the torrent was neither said to be gone nor cancelled. */
  ghost predicate Licensed(history: seq<Event>, n: nat)
    requires n <= |history|
  {
    n == 0 ||
    (Licensed(history, n - 1)
     && (history[n - 1].Sent? ==>
           var before := LastSent(history, n - 1, history[n - 1].key);
           before.Some? ==> history[n - 1].at > before.value + MINUTE))
  }

  lemma {:induction false} LicensedPrefix(x: seq<Event>, y: seq<Event>, n: nat)
    requires n <= |x|
    ensures Licensed(x + y, n) == Licensed(x, n)
  {
    if n > 0 {
      LicensedPrefix(x, y, n - 1);
      LastSentPrefix(x, y, n - 1, x[n - 1].key);
    }
  }

  /** The last send of a release is in the past, and something guards the release for a minute after it. */
  ghost predicate Remembered(a: Account, history: seq<Event>, h: Hash, now: Time) {
    var last := LastSent(history, |history|, h);
    last.Some? ==> last.value <= now && Guarded(a, h, last.value + MINUTE)
  }

  /** One step's events appended to a history: nothing, or something said of one key that may end in a send. */
  lemma {:induction false} Appended(history: seq<Event>, events: seq<Event>, h: string)
    requires Licensed(history, |history|) && |events| <= 2
    requires forall i :: 0 <= i < |events| ==> events[i].key == h
    requires |events| == 2 ==> !events[0].Sent?
    requires var last := LastSent(history, |history|, h);
             |events| == 1 && events[0].Sent? && last.Some? ==> events[0].at > last.value + MINUTE
    ensures var longer := history + events;
            Licensed(longer, |longer|)
            && LastSent(longer, |longer|, h)
               == if |events| == 0 then LastSent(history, |history|, h)
                  else if events[|events| - 1].Sent? then Some(events[|events| - 1].at) else None
  {
    var n, longer := |history|, history + events;
    LicensedPrefix(history, events, n);
    LastSentPrefix(history, events, n, h);
    if |events| == 2 {
      assert longer[n] == events[0] && longer[n + 1] == events[1];
      assert LastSent(longer, n + 1, h) == None;
      assert Licensed(longer, n + 1);
    } else if |events| == 1 {
      assert longer[n] == events[0];
    } else {
      assert longer == history;
    }
  }

  lemma {:induction false} RememberedAfter(a: Account, b: Account, history: seq<Event>, events: seq<Event>, h: Hash,
                                           until: Time, from: Time, to: Time)
    requires Licensed(history, |history|) && Remembered(a, history, h, from) && from <= to
    requires var last := LastSent(history, |history|, h); last.Some? ==> until == last.value + MINUTE
    requires Licenses(a, b, events, h, until, to)
    ensures var longer := history + events; Licensed(longer, |longer|) && Remembered(b, longer, h, to)
  {
    assert forall i :: 0 <= i < |events| ==> events[i].key == h;
    Appended(history, events, h);
  }

  lemma {:induction false} RememberedStep(p: Budget.Policy, a: Account, op: Op, history: seq<Event>)
    requires (op.Poll? ==> Ticks(op.clock)) && Licensed(history, |history|)
    requires Remembered(a, history, op.hash, Begins(op))
    ensures var (b, events) := Step(p, a, op); var longer := history + events;
            Licensed(longer, |longer|) && Remembered(b, longer, op.hash, Ends(op))
  {
    var last := LastSent(history, |history|, op.hash);
    var until := if last.Some? then last.value + MINUTE else Begins(op);
    StepLicenses(p, a, op, until);
    var (b, events) := Step(p, a, op);
    RememberedAfter(a, b, history, events, op.hash, until, Begins(op), Ends(op));
  }

  lemma {:induction false} LastSentOfOthers(history: seq<Event>, n: nat, m: nat, h: Hash)
    requires n <= m <= |history| && forall i :: n <= i < m ==> history[i].key != h
    ensures LastSent(history, m, h) == LastSent(history, n, h)
  {
    if n < m {
      LastSentOfOthers(history, n, m - 1, h);
    }
  }

  /** A step over another release. */
  lemma {:induction false} RememberedApart(p: Budget.Policy, a: Account, op: Op, history: seq<Event>, h: Hash)
    requires (op.Poll? ==> Ticks(op.clock)) && op.hash != h
    requires Remembered(a, history, h, Begins(op))
    ensures var (b, events) := Step(p, a, op); Remembered(b, history + events, h, Ends(op))
  {
    var n := |history|;
    var (b, events) := Step(p, a, op);
    var last := LastSent(history, n, h);
    OthersUntouched(p, a, op, h, if last.Some? then last.value + MINUTE else Begins(op));
    LastSentPrefix(history, events, n, h);
    LastSentOfOthers(history + events, n, |history + events|, h);
  }

  lemma {:induction false} RunRemembers(p: Budget.Policy, a: Account, ops: seq<Op>, n: nat, start: Time, h: Hash)
    requires n <= |ops| && WellTimed(ops, n, start)
    ensures var (b, history) := Run(p, a, ops, n);
            Licensed(history, |history|) && Remembered(b, history, h, ClockAt(ops, n, start))
  {
    if n > 0 {
      var (before, history) := Run(p, a, ops, n - 1);
      var op := ops[n - 1];
      RunRemembers(p, a, ops, n - 1, start, op.hash);
      RememberedStep(p, before, op, history);
      if h != op.hash {
        RunRemembers(p, a, ops, n - 1, start, h);
        RememberedApart(p, before, op, history, h);
      }
    }
  }

  /** Licensed re-add: in every run, from any account and whatever TorBox answers, of two sends of one release the
      second comes more than a minute after the first, unless between them TorBox said the remembered torrent is
      gone or the user cancelled it. */
  lemma {:induction false} LicensedReadd(p: Budget.Policy, a: Account, ops: seq<Op>, start: Time, i: nat, j: nat)
    requires WellTimed(ops, |ops|, start)
    requires var history := Run(p, a, ops, |ops|).1;
             i < j < |history| && history[i].Sent? && history[j].Sent? && history[i].key == history[j].key
    ensures var history := Run(p, a, ops, |ops|).1;
            history[j].at > history[i].at + MINUTE
            || exists k :: i < k < j && history[k].key == history[i].key && !history[k].Sent?
  {
    var history := Run(p, a, ops, |ops|).1;
    RunRemembers(p, a, ops, |ops|, start, history[i].key);
    SpacedSends(history, |history|, i, j);
  }

  lemma {:induction false} SpacedSends(history: seq<Event>, n: nat, i: nat, j: nat)
    requires n <= |history| && Licensed(history, n)
    requires i < j < n && history[i].Sent? && history[j].Sent? && history[i].key == history[j].key
    ensures history[j].at > history[i].at + MINUTE
            || exists k :: i < k < j && history[k].key == history[i].key && !history[k].Sent?
  {
    var h := history[i].key;
    LicensedTo(history, n, j + 1);
    var k := j;
    while k > i + 1 && history[k - 1].key != h
      invariant i < k <= j
      invariant LastSent(history, j, h) == LastSent(history, k, h)
      invariant forall m :: k <= m < j ==> history[m].key != h
    {
      k := k - 1;
    }
    if k - 1 > i && history[k - 1].Sent? {
      SpacedSends(history, n, i, k - 1);
    }
  }

  lemma {:induction false} LicensedTo(history: seq<Event>, n: nat, m: nat)
    requires m <= n <= |history| && Licensed(history, n)
    ensures Licensed(history, m)
  {
    if m < n {
      LicensedTo(history, n - 1, m);
    }
  }

  // ---- a resolve that may not add ----

  /** A resolve that may not add sends nothing, spends nothing, and leaves no refusal that could turn a later viewer
      away from this release. */
  lemma {:induction false} NoAddSpendsNothing(p: Budget.Policy, a: Account, h: Hash, t: Target, u: Answers, c: Clock)
    requires t.noAdd
    ensures var r := Resolve(p, a, h, t, u, c);
            r.account.stamps == a.stamps && Of(r.account, h).refused == Of(a, h).refused
            && (forall e <- r.events :: e.Forgotten?)
  {
    NoAddRemembering(a, h, t, u, c);
    NoAddUnheld(p, Remembering(a, h, t, u, c).0, h, t, u, c);
  }

  lemma {:induction false} NoAddRemembering(a: Account, h: Hash, t: Target, u: Answers, c: Clock)
    requires t.noAdd
    ensures var b := Remembering(a, h, t, u, c).0; b.stamps == a.stamps && Of(b, h).refused == Of(a, h).refused
  {
    var (b, settled) := Top(a, h, t, u, c);
    if settled.None? && Live(Of(b, h).id, c.warmed) {
      NoAddHold(b, h, t, Of(b, h).id.value.value, u.heldList, u.heldPicks, u.heldLink, c.listed, c.linked);
    }
  }

  lemma {:induction false} NoAddHold(a: Account, h: Hash, t: Target, id: int, list: ListAnswer, picks: bool,
                                     link: LinkAnswer, listed: Time, linked: Time)
    requires t.noAdd
    ensures var b := Hold(a, h, t, id, list, picks, link, listed, linked).0;
            b.stamps == a.stamps && Of(b, h).refused == Of(a, h).refused
  {
  }

  lemma {:induction false} NoAddUnheld(p: Budget.Policy, a: Account, h: Hash, t: Target, u: Answers, c: Clock)
    requires t.noAdd
    ensures var r := Unheld(p, a, h, t, u, c);
            r.account.stamps == a.stamps && Of(r.account, h).refused == Of(a, h).refused
            && (forall e <- r.events :: e.Forgotten?)
  {
    var (b, id, _) := LookUp(a, h, u.lookup, c.looked);
    if id.Some? {
      var d := With(b, h, Of(b, h).(queued := None));
      NoAddHold(d, h, t, id.value, u.lastList, u.lastPicks, u.lastLink, c.relisted, c.relinked);
    }
  }

  // ---- the budget ----

  /** How one step may change the charges, at the instant it may charge: not at all, by dropping what has drained, by
      one charge, or by one charge given back at once; and what it sent and the service counts is exactly the charge
      that stays. */
  ghost predicate Accounts(p: Budget.Policy, a: seq<Time>, b: seq<Time>, events: seq<Event>, at: Time) {
    var n, kept := |events|, Budget.Live(a, at - p.window);
    if n > 0 && events[n - 1].Sent? then
      events[n - 1].at == at && |kept| < p.limit
      && b == (if events[n - 1].counts then kept + [at] else Budget.Pop(kept + [at]))
      && forall i :: 0 <= i < n - 1 ==> !events[i].Sent?
    else
      (forall e <- events :: !e.Sent?) && (b == a || b == kept || b == Budget.Pop(kept + [at]))
  }

  lemma {:induction false} HoldStamps(a: Account, h: Hash, t: Target, id: int, list: ListAnswer, picks: bool,
                                      link: LinkAnswer, listed: Time, linked: Time)
    ensures Hold(a, h, t, id, list, picks, link, listed, linked).0.stamps == a.stamps
  {
  }

  lemma {:induction false} ParkStamps(a: Account, h: Hash, t: Target, queued: int, u: Answers, c: Clock)
    ensures Park(a, h, t, queued, u, c).0.stamps == a.stamps
  {
    var b := With(a, h, Of(a, h).(ours := Put(true, c.answered, RESOLVE_CACHE_TTL),
                                  queued := Put(queued, c.answered, RESOLVE_CACHE_TTL)));
    HoldStamps(b, h, t, 0, u.lastList, u.lastPicks, u.lastLink, c.relisted, c.relinked);
  }

  lemma {:induction false} AnswerStamps(a: Account, h: Hash, t: Target, u: Answers, c: Clock)
    requires !u.add.NotBuilt? && !u.add.Lost? && !u.add.Unread?
    ensures AfterAnswer(a, h, t, u, c).0.stamps == if CreatedNothing(u.add) then Budget.Pop(a.stamps) else a.stamps
  {
    var b := With(a, h, Settle(Of(a, h)));
    match u.add
    case AlreadyQueued(queued) => ParkStamps(GiveBack(b), h, t, queued, u, c);
    case Created(id) =>
      var d := With(b, h, Of(b, h).(ours := Put(true, c.answered, RESOLVE_CACHE_TTL)));
      HoldStamps(d, h, t, id, u.lastList, u.lastPicks, u.lastLink, c.relisted, c.relinked);
    case Parked(queued) => ParkStamps(b, h, t, queued, u, c);
    case _ =>
  }

  lemma {:induction false} BuyAccounts(p: Budget.Policy, a: Account, h: Hash, t: Target, u: Answers, c: Clock)
    requires Ticks(c) && p.reserve >= 0
    ensures var r := Buy(p, a, h, t, u, c); Accounts(p, a.stamps, r.account.stamps, r.events, c.sent)
  {
    var noted := With(Charge(a, p, c.sent), h, NoteAttempt(Of(a, h), c.sent));
    if !u.add.NotBuilt? && !u.add.Lost? && !u.add.Unread? {
      AnswerStamps(noted, h, t, u, c);
    }
  }

  lemma {:induction false} PromoteStamps(a: Account, h: Hash, t: Target, u: Answers, c: Clock)
    ensures var r := Promote(a, h, t, u, c);
            r.account.stamps == a.stamps && |r.events| <= 1 && (forall e <- r.events :: e.Forgotten?)
  {
    var (b, id, _) := LookUp(a, h, u.lookup, c.looked);
    if id.Some? {
      var d := With(b, h, Of(b, h).(queued := None));
      HoldStamps(d, h, t, id.value, u.lastList, u.lastPicks, u.lastLink, c.relisted, c.relinked);
    }
  }

  lemma {:induction false} UnheldAccounts(p: Budget.Policy, a: Account, h: Hash, t: Target, u: Answers, c: Clock)
    requires Ticks(c) && p.reserve >= 0
    ensures var r := Unheld(p, a, h, t, u, c);
            Accounts(p, a.stamps, r.account.stamps, r.events, c.sent) && |r.events| <= 1
  {
    if Live(Of(a, h).queued, c.linked) {
      PromoteStamps(a, h, t, u, c);
    } else if !t.noAdd {
      BuyAccounts(p, a, h, t, u, c);
    }
  }

  lemma {:induction false} RememberingStamps(a: Account, h: Hash, t: Target, u: Answers, c: Clock)
    ensures Remembering(a, h, t, u, c).0.stamps == a.stamps
  {
    var (b, settled) := Top(a, h, t, u, c);
    if settled.None? && Live(Of(b, h).id, c.warmed) {
      HoldStamps(b, h, t, Of(b, h).id.value.value, u.heldList, u.heldPicks, u.heldLink, c.listed, c.linked);
    }
  }

  /** A torrent forgotten on the way does not change what was spent. */
  lemma {:induction false} AccountsAfter(p: Budget.Policy, a: seq<Time>, b: seq<Time>, events: seq<Event>, at: Time,
                                         h: Hash)
    requires Accounts(p, a, b, events, at) && |events| <= 1
    ensures Accounts(p, a, b, [Forgotten(h)] + events, at)
  {
    if |events| == 1 {
      assert ([Forgotten(h)] + events)[1] == events[0];
    }
  }

  /** When an operation may charge. */
  function Charges(op: Op): Time { if op.Poll? then op.clock.sent else op.now }

  lemma {:induction false} StepAccounts(p: Budget.Policy, a: Account, op: Op)
    requires (op.Poll? ==> Ticks(op.clock)) && p.reserve >= 0
    ensures var (b, events) := Step(p, a, op); Accounts(p, a.stamps, b.stamps, events, Charges(op))
  {
    if op.Poll? {
      var h, t, u, c := op.hash, op.target, op.answers, op.clock;
      var b := Remembering(a, h, t, u, c).0;
      RememberingStamps(a, h, t, u, c);
      UnheldAccounts(p, b, h, t, u, c);
      var rest := Unheld(p, b, h, t, u, c);
      AccountsAfter(p, a.stamps, rest.account.stamps, rest.events, c.sent, h);
    }
  }

  /** When adds the service may be counting were sent, among the first n events. */
  function Kept(history: seq<Event>, n: nat): seq<Time>
    requires n <= |history|
  {
    if n == 0 then []
    else
      var e := history[n - 1];
      if e.Sent? && e.counts then Kept(history, n - 1) + [e.at] else Kept(history, n - 1)
  }

  lemma {:induction false} KeptAppend(x: seq<Event>, y: seq<Event>, n: nat)
    requires n <= |y|
    requires forall i :: 0 <= i < n ==> !(y[i].Sent? && y[i].counts)
    ensures Kept(x + y, |x| + n) == Kept(x, |x|)
  {
    if n > 0 {
      assert (x + y)[|x| + n - 1] == y[n - 1];
      KeptAppend(x, y, n - 1);
    } else {
      KeptPrefix(x, y, |x|);
    }
  }

  lemma {:induction false} KeptPrefix(x: seq<Event>, y: seq<Event>, n: nat)
    requires n <= |x|
    ensures Kept(x + y, n) == Kept(x, n)
  {
    if n > 0 {
      KeptPrefix(x, y, n - 1);
    }
  }

  lemma {:induction false} ChargeCovers(p: Budget.Policy, kept: seq<Time>, stamps: seq<Time>, at: Time)
    requires p.window > 0 && Budget.Covered(kept, stamps, at, p) && Budget.Ascending(stamps) && Budget.UpTo(stamps, at)
    requires |Budget.Live(stamps, at - p.window)| < p.limit
    ensures var after := Budget.Live(stamps, at - p.window) + [at];
            Budget.Covered(kept + [at], after, at, p) && Budget.Ascending(after) && Budget.UpTo(after, at)
  {
    var cutoff := at - p.window;
    var live := Budget.Live(stamps, cutoff);
    Budget.LiveIsSuffix(stamps, cutoff);
    Budget.LiveAgain(stamps, cutoff, cutoff);
    Budget.LiveAppend(kept, at, cutoff);
    Budget.LiveAppend(live, at, cutoff);
    Budget.SpacedAfterGrant(kept, at, p.window, p.limit);
  }

  lemma {:induction false} DrainCovers(p: Budget.Policy, kept: seq<Time>, stamps: seq<Time>, at: Time)
    requires Budget.Covered(kept, stamps, at, p) && Budget.Ascending(stamps) && Budget.UpTo(stamps, at)
    ensures var after := Budget.Live(stamps, at - p.window);
            Budget.Covered(kept, after, at, p) && Budget.Ascending(after) && Budget.UpTo(after, at)
            && Budget.Pop(after + [at]) == after
  {
    Budget.LiveIsSuffix(stamps, at - p.window);
    Budget.LiveAgain(stamps, at - p.window, at - p.window);
  }

  /** The charges cover the counted sends. */
  ghost predicate Backed(p: Budget.Policy, stamps: seq<Time>, history: seq<Event>, now: Time) {
    Budget.Ascending(stamps) && Budget.UpTo(stamps, now) && Budget.Covered(Kept(history, |history|), stamps, now, p)
  }

  lemma {:induction false} BackedLater(p: Budget.Policy, stamps: seq<Time>, history: seq<Event>, now: Time, later: Time)
    requires Backed(p, stamps, history, now) && now <= later
    ensures Backed(p, stamps, history, later)
  {
    Budget.CoveredLater(Kept(history, |history|), stamps, now, later, p);
  }

  lemma {:induction false} KeptLast(history: seq<Event>, events: seq<Event>)
    requires var n := |events|; n > 0 && events[n - 1].Sent? && forall i :: 0 <= i < n - 1 ==> !events[i].Sent?
    ensures var e, longer := events[|events| - 1], history + events;
            Kept(longer, |longer|) == Kept(history, |history|) + if e.counts then [e.at] else []
  {
    KeptAppend(history, events, |events| - 1);
    var longer := history + events;
    assert longer[|longer| - 1] == events[|events| - 1];
  }

  /** A step that sends. */
  lemma {:induction false} SentBacked(p: Budget.Policy, a: seq<Time>, b: seq<Time>, history: seq<Event>,
                                      events: seq<Event>, at: Time)
    requires p.window > 0 && Backed(p, a, history, at) && |events| > 0 && events[|events| - 1].Sent?
    requires Accounts(p, a, b, events, at)
    ensures Backed(p, b, history + events, at)
  {
    var kept, longer := Kept(history, |history|), history + events;
    KeptLast(history, events);
    if events[|events| - 1].counts {
      ChargeCovers(p, kept, a, at);
      assert Kept(longer, |longer|) == kept + [at];
    } else {
      DrainCovers(p, kept, a, at);
      assert Kept(longer, |longer|) == kept;
    }
  }

  /** A step that does not. */
  lemma {:induction false} UnsentBacked(p: Budget.Policy, a: seq<Time>, b: seq<Time>, history: seq<Event>,
                                        events: seq<Event>, at: Time)
    requires Backed(p, a, history, at) && forall e <- events :: !e.Sent?
    requires Accounts(p, a, b, events, at)
    ensures Backed(p, b, history + events, at)
  {
    var kept, longer := Kept(history, |history|), history + events;
    KeptAppend(history, events, |events|);
    assert Kept(longer, |longer|) == kept;
    DrainCovers(p, kept, a, at);
    assert b == a || b == Budget.Live(a, at - p.window);
  }

  /** Any step: what it charges at one instant keeps the charges covering the counted sends. */
  lemma {:induction false} ChargesBacked(p: Budget.Policy, a: seq<Time>, b: seq<Time>, history: seq<Event>,
                                         events: seq<Event>, from: Time, at: Time, to: Time)
    requires p.window > 0 && Backed(p, a, history, from) && from <= at <= to && Accounts(p, a, b, events, at)
    ensures Backed(p, b, history + events, to)
  {
    BackedLater(p, a, history, from, at);
    if |events| > 0 && events[|events| - 1].Sent? {
      SentBacked(p, a, b, history, events, at);
    } else {
      UnsentBacked(p, a, b, history, events, at);
    }
    BackedLater(p, b, history + events, at, to);
  }

  lemma {:induction false} StepBacked(p: Budget.Policy, a: Account, op: Op, history: seq<Event>)
    requires (op.Poll? ==> Ticks(op.clock)) && p.reserve >= 0 && p.window > 0
    requires Backed(p, a.stamps, history, Begins(op))
    ensures var (b, events) := Step(p, a, op); Backed(p, b.stamps, history + events, Ends(op))
  {
    var (b, events) := Step(p, a, op);
    StepAccounts(p, a, op);
    ChargesBacked(p, a.stamps, b.stamps, history, events, Begins(op), Charges(op), Ends(op));
  }

  lemma {:induction false} NothingBacked(p: Budget.Policy, now: Time)
    ensures Backed(p, [], [], now)
  {
  }

  lemma {:induction false} RunBacked(p: Budget.Policy, a: Account, ops: seq<Op>, n: nat, start: Time)
    requires n <= |ops| && WellTimed(ops, n, start) && a.stamps == [] && p.reserve >= 0 && p.window > 0
    ensures var (b, history) := Run(p, a, ops, n); Backed(p, b.stamps, history, ClockAt(ops, n, start))
  {
    if n > 0 {
      var (before, history) := Run(p, a, ops, n - 1);
      RunBacked(p, a, ops, n - 1, start);
      BackedLater(p, before.stamps, history, ClockAt(ops, n - 1, start), Begins(ops[n - 1]));
      StepBacked(p, before, ops[n - 1], history);
    } else {
      NothingBacked(p, start);
    }
  }

  /** Budget safety of the whole protocol: in every run that starts with nothing charged, whatever TorBox answered and
      however often a charge was given back, no rolling window holds more sends it may be counting than the limit. */
  lemma {:induction false} SendsWithinBudget(p: Budget.Policy, a: Account, ops: seq<Op>, start: Time, t: Time)
    requires WellTimed(ops, |ops|, start) && a.stamps == []
    requires p.reserve >= 0 && p.window > 0 && p.limit >= 0
    ensures var history := Run(p, a, ops, |ops|).1;
            var sends := Kept(history, |history|);
            Budget.CountWithin(sends, |sends|, t - p.window, t) <= p.limit
  {
    RunBacked(p, a, ops, |ops|, start);
    var (b, history) := Run(p, a, ops, |ops|);
    BackedBounds(p, b.stamps, history, ClockAt(ops, |ops|, start), t);
  }

  lemma {:induction false} BackedBounds(p: Budget.Policy, stamps: seq<Time>, history: seq<Event>, now: Time,
                                        t: Time)
    requires Backed(p, stamps, history, now) && p.limit >= 0
    ensures var sends := Kept(history, |history|);
            Budget.CountWithin(sends, |sends|, t - p.window, t) <= p.limit
  {
    var sends := Kept(history, |history|);
    Budget.CountSpaced(sends, |sends|, p.window, p.limit, t);
  }

  /** The reserve: after every such run, a resolve made for prefetch sends only while fewer than limit - reserve
      counted sends are still in the window behind it. */
  lemma {:induction false} PrefetchLeavesTheReserve(p: Budget.Policy, a: Account, ops: seq<Op>, start: Time, h: Hash,
                                                    t: Target, u: Answers, c: Clock)
    requires WellTimed(ops, |ops|, start) && a.stamps == [] && p.reserve >= 0 && p.window > 0
    requires Ticks(c) && ClockAt(ops, |ops|, start) <= c.top && t.prefetch
    ensures var (b, history) := Run(p, a, ops, |ops|);
            forall e <- Resolve(p, b, h, t, u, c).events :: e.Sent? ==>
              |Budget.Live(Kept(history, |history|), e.at - p.window)| < p.limit - p.reserve
  {
    RunBacked(p, a, ops, |ops|, start);
    var (b, history) := Run(p, a, ops, |ops|);
    PrefetchFrom(p, b, history, ClockAt(ops, |ops|, start), h, t, u, c);
  }

  lemma {:induction false} PrefetchFrom(p: Budget.Policy, a: Account, history: seq<Event>, now: Time, h: Hash,
                                        t: Target, u: Answers, c: Clock)
    requires Backed(p, a.stamps, history, now) && Ticks(c) && now <= c.top && t.prefetch
    ensures forall e <- Resolve(p, a, h, t, u, c).events :: e.Sent? ==>
              |Budget.Live(Kept(history, |history|), e.at - p.window)| < p.limit - p.reserve
  {
    SentWasAllowed(p, a, h, t, u, c);
    BackedLater(p, a.stamps, history, now, c.sent);
    if MayCharge(a, p, true, c.sent) {
      ReserveLeft(p, a, history, c.sent);
    }
  }

  lemma {:induction false} ReserveLeft(p: Budget.Policy, a: Account, history: seq<Event>, at: Time)
    requires Backed(p, a.stamps, history, at) && MayCharge(a, p, true, at)
    ensures |Budget.Live(Kept(history, |history|), at - p.window)| < p.limit - p.reserve
  {
  }

  lemma {:induction false} SentWasAllowed(p: Budget.Policy, a: Account, h: Hash, t: Target, u: Answers, c: Clock)
    ensures forall e <- Resolve(p, a, h, t, u, c).events :: e.Sent? ==>
              e.at == c.sent && MayCharge(a, p, t.prefetch, c.sent)
  {
    RememberingStamps(a, h, t, u, c);
    var b := Remembering(a, h, t, u, c).0;
    PromoteStamps(b, h, t, u, c);
    assert MayCharge(b, p, t.prefetch, c.sent) == MayCharge(a, p, t.prefetch, c.sent);
  }

  // ---- when an add goes out ----

  /** Nothing is remembered here any more. */
  predicate Over<T>(slot: Slot<T>, now: Time) {
    slot.None? || slot.value.expires < now
  }

  /** The first silence of the adds of a release is remembered, and lies further back than the give-up. */
  predicate GivenUp(r: Release, now: Time) {
    !Over(r.unknown, now) && now - r.unknown.value.value * SECOND > ADD_GIVE_UP
  }

  /** At the start of a resolve the account, or the release, was turned away less than a minute ago. That of the release
      waits for an add that is out, and stops nobody who may not add. */
  predicate TurnedAway(a: Account, h: Hash, t: Target, now: Time) {
    var r := Of(a, h);
    !Over(a.refused, now)
    || (!t.noAdd && !Over(r.refused, now) && (GivenUp(r, now) || Over(r.attempt, now)))
  }

  /** The remembered pack answers for itself: it lists no file for the target, or its link is given or refused. */
  predicate WarmServes(r: Release, t: Target, u: Answers, now: Time) {
    !Over(r.warm, now) && (t.needFiles ==> r.warm.value.value.listed)
    && (u.warmPicks ==> u.warmLink.Linked? || u.warmLink.LinkRefused?)
  }

  /** A torrent asked for its files, and for a link, turns out to be gone. */
  predicate SaidGone(t: Target, list: ListAnswer, picks: bool, link: LinkAnswer) {
    (t.needFiles && list.ListGone?) || ((t.needFiles ==> list == Listed(true)) && picks && link.LinkGone?)
  }

  /** The remembered torrent answers for itself: it is not gone. */
  predicate HeldServes(r: Release, t: Target, u: Answers, now: Time) {
    !Over(r.id, now) && !SaidGone(t, u.heldList, u.heldPicks, u.heldLink)
  }

  /** Nothing that is remembered of the release or its account stands between this resolve and an add. */
  predicate Unhindered(a: Account, h: Hash, t: Target, u: Answers, c: Clock) {
    var r := Of(a, h);
    !TurnedAway(a, h, t, c.top) && !WarmServes(r, t, u, c.top) && !HeldServes(r, t, u, c.warmed)
    && Over(r.queued, c.linked)
    && !GivenUp(r, c.sent) && Over(r.attempt, c.sent) && Over(r.refused, c.sent) && Over(a.refused, c.sent)
  }

  /** Fewer charges of the account's are in the window than the hour allows, or for a prefetch than it allows less what is
      kept for viewers. */
  predicate HasRoom(p: Budget.Policy, charges: seq<Time>, prefetch: bool, now: Time) {
    |Budget.Live(charges, now - p.window)| < if prefetch then p.limit - p.reserve else p.limit
  }

  /** What survives the search for a torrent that is held: all that an add depends on. */
  ghost predicate SameForAdding(a: Account, b: Account, h: Hash) {
    b.refused == a.refused && b.stamps == a.stamps
    && Of(b, h).attempt == Of(a, h).attempt && Of(b, h).unknown == Of(a, h).unknown
    && Of(b, h).refused == Of(a, h).refused && Of(b, h).queued == Of(a, h).queued
  }

  lemma {:induction false} TopSettles(a: Account, h: Hash, t: Target, u: Answers, c: Clock)
    ensures var (b, settled) := Top(a, h, t, u, c);
            (settled.None? <==> !TurnedAway(a, h, t, c.top) && !WarmServes(Of(a, h), t, u, c.top))
            && (settled.None? ==> b == a)
  {
  }

  lemma {:induction false} HoldGone(a: Account, h: Hash, t: Target, id: int, list: ListAnswer, picks: bool,
                                    link: LinkAnswer, listed: Time, linked: Time)
    ensures var (b, outcome) := Hold(a, h, t, id, list, picks, link, listed, linked);
            (outcome == Gone <==> SaidGone(t, list, picks, link)) && (outcome == Gone ==> SameForAdding(a, b, h))
  {
  }

  lemma {:induction false} RememberingSettles(a: Account, h: Hash, t: Target, u: Answers, c: Clock)
    ensures var (b, settled, _) := Remembering(a, h, t, u, c);
            (settled.None? <==> !TurnedAway(a, h, t, c.top) && !WarmServes(Of(a, h), t, u, c.top)
                                && !HeldServes(Of(a, h), t, u, c.warmed))
            && (settled.None? ==> SameForAdding(a, b, h))
  {
    TopSettles(a, h, t, u, c);
    if Top(a, h, t, u, c).1.None? && !Over(Of(a, h).id, c.warmed) {
      HoldGone(a, h, t, Of(a, h).id.value.value, u.heldList, u.heldPicks, u.heldLink, c.listed, c.linked);
    }
  }

  /** The last of the events is an add of this release, sent at this instant; the service may be counting it unless it
      answered that it created nothing. */
  ghost predicate EndsInAdd(events: seq<Event>, h: Hash, at: Time, add: AddAnswer) {
    |events| > 0
    && events[|events| - 1] == Sent(h, at, add.Lost? || add.Unread? || add.Created? || add.Parked? || add == NoId(false))
  }

  lemma {:induction false} PromoteSendsNothing(a: Account, h: Hash, t: Target, u: Answers, c: Clock)
    ensures forall e <- Promote(a, h, t, u, c).events :: !e.Sent?
  {
  }

  lemma {:induction false} BuySends(p: Budget.Policy, a: Account, h: Hash, t: Target, u: Answers, c: Clock)
    ensures var r, events := Of(a, h), Buy(p, a, h, t, u, c).events;
            if !GivenUp(r, c.sent) && Over(r.attempt, c.sent) && Over(r.refused, c.sent) && Over(a.refused, c.sent)
               && !u.clockSpent && HasRoom(p, a.stamps, t.prefetch, c.sent) && !u.add.NotBuilt?
            then EndsInAdd(events, h, c.sent, u.add) else events == []
  {
  }

  lemma {:induction false} UnheldSends(p: Budget.Policy, a: Account, h: Hash, t: Target, u: Answers, c: Clock)
    ensures var r, events := Of(a, h), Unheld(p, a, h, t, u, c).events;
            if Over(r.queued, c.linked) && !GivenUp(r, c.sent) && Over(r.attempt, c.sent) && Over(r.refused, c.sent)
               && Over(a.refused, c.sent) && !t.noAdd && !u.clockSpent && HasRoom(p, a.stamps, t.prefetch, c.sent)
               && !u.add.NotBuilt?
            then EndsInAdd(events, h, c.sent, u.add) else forall e <- events :: !e.Sent?
  {
    PromoteSendsNothing(a, h, t, u, c);
    BuySends(p, a, h, t, u, c);
  }

  /** Exactly when an add goes out. A resolve sends one, and then as the last thing it says, if and only if nothing
      remembered stands between, the caller allows it, the clock is not spent, the hour has room, and the request could
      be built. */
  lemma {:induction false} SendsExactly(p: Budget.Policy, a: Account, h: Hash, t: Target, u: Answers, c: Clock)
    ensures var events := Resolve(p, a, h, t, u, c).events;
            if Unhindered(a, h, t, u, c) && !t.noAdd && !u.clockSpent && HasRoom(p, a.stamps, t.prefetch, c.sent)
               && !u.add.NotBuilt?
            then EndsInAdd(events, h, c.sent, u.add) else forall e <- events :: !e.Sent?
  {
    var (b, settled, gone) := Remembering(a, h, t, u, c);
    RememberingSettles(a, h, t, u, c);
    if settled.None? {
      UnheldSends(p, b, h, t, u, c);
      assert gone ==> Resolve(p, a, h, t, u, c).events == [Forgotten(h)] + Unheld(p, b, h, t, u, c).events;
    }
  }

  /** And over runs, in terms of what was sent: after every run that starts with nothing charged, an unhindered resolve
      that may add sends if and only if it has time, its request is built, and fewer adds TorBox may be counting lie in
      the window behind it than the hour allows. So no charge is ever lost, and none outlives its window. */
  lemma {:induction false} SendsExactlyAfterRun(p: Budget.Policy, a: Account, ops: seq<Op>, start: Time, h: Hash,
                                                t: Target, u: Answers, c: Clock)
    requires WellTimed(ops, |ops|, start) && a.stamps == [] && p.reserve >= 0 && p.window > 0
    requires Ticks(c) && ClockAt(ops, |ops|, start) <= c.top
    requires Unhindered(Run(p, a, ops, |ops|).0, h, t, u, c) && !t.noAdd
    ensures var (b, history) := Run(p, a, ops, |ops|);
            (exists e :: e in Resolve(p, b, h, t, u, c).events && e.Sent?)
            <==> !u.clockSpent && !u.add.NotBuilt? && HasRoom(p, Kept(history, |history|), t.prefetch, c.sent)
  {
    var (b, history) := Run(p, a, ops, |ops|);
    RunBacked(p, a, ops, |ops|, start);
    BackedLater(p, b.stamps, history, ClockAt(ops, |ops|, start), c.sent);
    SendsExactly(p, b, h, t, u, c);
    var events := Resolve(p, b, h, t, u, c).events;
    if EndsInAdd(events, h, c.sent, u.add) {
      assert events[|events| - 1] in events;
    }
  }

  // ---- what a resolve says ----

  /** A torrent asked for its files, and for a link, gives one. */
  predicate GivesLink(t: Target, list: ListAnswer, picks: bool, link: LinkAnswer) {
    (t.needFiles ==> list == Listed(true)) && picks && link.Linked?
  }

  lemma {:induction false} HoldLinks(a: Account, h: Hash, t: Target, id: int, list: ListAnswer, picks: bool,
                                     link: LinkAnswer, listed: Time, linked: Time)
    ensures Hold(a, h, t, id, list, picks, link, listed, linked).1 == Link <==> GivesLink(t, list, picks, link)
  {
  }

  /** The listing names a torrent for a parked add, or one is remembered by now. */
  predicate BecameTorrent(r: Release, u: Answers, c: Clock) {
    !Over(r.id, c.looked) || (Over(r.miss, c.looked) && u.lookup.Found?)
  }

  /** The answer to an add names a torrent that is not waiting in the queue. */
  predicate Adds(add: AddAnswer) {
    add.Created? || (add.Parked? && add.queued == 0) || (add.AlreadyQueued? && add.queued == 0)
  }

  lemma {:induction false} BuyLinks(p: Budget.Policy, a: Account, h: Hash, t: Target, u: Answers, c: Clock)
    ensures Buy(p, a, h, t, u, c).outcome == Link
            <==> |Buy(p, a, h, t, u, c).events| > 0 && Adds(u.add) && GivesLink(t, u.lastList, u.lastPicks, u.lastLink)
  {
  }

  lemma {:induction false} PromoteLinks(a: Account, h: Hash, t: Target, u: Answers, c: Clock)
    ensures Promote(a, h, t, u, c).outcome == Link
            <==> BecameTorrent(Of(a, h), u, c) && GivesLink(t, u.lastList, u.lastPicks, u.lastLink)
  {
    var (b, id, _) := LookUp(a, h, u.lookup, c.looked);
    if id.Some? {
      var unparked := With(b, h, Of(b, h).(queued := None));
      HoldLinks(unparked, h, t, id.value, u.lastList, u.lastPicks, u.lastLink, c.relisted, c.relinked);
    }
  }

  /** Exactly when a link is served: the remembered pack gives one; or else the remembered torrent does; or else, where an
      add is parked, the torrent it has become; or else the one just added. */
  lemma {:induction false} LinksExactly(p: Budget.Policy, a: Account, h: Hash, t: Target, u: Answers, c: Clock)
    requires Ticks(c)
    ensures var r := Of(a, h);
            Resolve(p, a, h, t, u, c).outcome == Link
            <==> !TurnedAway(a, h, t, c.top)
                 && if WarmServes(r, t, u, c.top) then u.warmPicks && u.warmLink.Linked?
                    else if HeldServes(r, t, u, c.warmed) then GivesLink(t, u.heldList, u.heldPicks, u.heldLink)
                    else
                      GivesLink(t, u.lastList, u.lastPicks, u.lastLink)
                      && if Over(r.queued, c.linked) then
                           !t.noAdd && Unhindered(a, h, t, u, c) && !u.clockSpent && HasRoom(p, a.stamps, t.prefetch, c.sent)
                           && Adds(u.add)
                         else Over(r.miss, c.looked) && u.lookup.Found?
  {
    var (b, settled, gone) := Remembering(a, h, t, u, c);
    RememberingSettles(a, h, t, u, c);
    RememberingLinks(a, h, t, u, c);
    if settled.None? {
      RememberingForgets(a, h, t, u, c);
      UnheldSends(p, b, h, t, u, c);
      BuySends(p, b, h, t, u, c);
      BuyLinks(p, b, h, t, u, c);
      PromoteLinks(b, h, t, u, c);
    }
  }

  lemma {:induction false} RememberingLinks(a: Account, h: Hash, t: Target, u: Answers, c: Clock)
    ensures var settled := Remembering(a, h, t, u, c).1;
            settled == Some(Link)
            <==> !TurnedAway(a, h, t, c.top)
                 && if WarmServes(Of(a, h), t, u, c.top) then u.warmPicks && u.warmLink.Linked?
                    else HeldServes(Of(a, h), t, u, c.warmed) && GivesLink(t, u.heldList, u.heldPicks, u.heldLink)
  {
    TopSettles(a, h, t, u, c);
    if Top(a, h, t, u, c).1.None? && !Over(Of(a, h).id, c.warmed) {
      HoldGone(a, h, t, Of(a, h).id.value.value, u.heldList, u.heldPicks, u.heldLink, c.listed, c.linked);
      HoldLinks(a, h, t, Of(a, h).id.value.value, u.heldList, u.heldPicks, u.heldLink, c.listed, c.linked);
    }
  }

  /** When nothing held serves, no id is remembered any more. */
  lemma {:induction false} RememberingForgets(a: Account, h: Hash, t: Target, u: Answers, c: Clock)
    requires Remembering(a, h, t, u, c).1.None?
    ensures var b := Remembering(a, h, t, u, c).0; Over(Of(b, h).id, c.warmed) && Of(b, h).miss == Of(a, h).miss
  {
    TopSettles(a, h, t, u, c);
  }

  /** What a resolve that serves nothing and sends nothing says: turned away, it is unavailable; with an add parked it
      waits, and where none may be added it says so; past the give-up the release is dead, and before that an add of
      ours that is out is coming; a refusal a moment ago is unavailable; and out of time or of adds it is busy. */
  lemma {:induction false} SaysWithoutAdding(p: Budget.Policy, a: Account, h: Hash, t: Target, u: Answers, c: Clock)
    requires Ticks(c)
    ensures var r, said := Of(a, h), Resolve(p, a, h, t, u, c).outcome;
            (TurnedAway(a, h, t, c.top) ==> said == Unavailable)
            && (!TurnedAway(a, h, t, c.top) && !WarmServes(r, t, u, c.top) && !HeldServes(r, t, u, c.warmed) ==>
                  if !Over(r.queued, c.linked) then
                    (Over(r.miss, c.looked) && u.lookup.Found?) || said == if t.noAdd then WouldAdd else Waiting
                  else if t.noAdd then said == WouldAdd
                  else if GivenUp(r, c.sent) then said == Dead
                  else if !Over(r.attempt, c.sent) then said == Coming
                  else if !Over(r.refused, c.sent) || !Over(a.refused, c.sent) then said == Unavailable
                  else if u.clockSpent || !HasRoom(p, a.stamps, t.prefetch, c.sent) then said == Busy
                  else u.add.NotBuilt? ==> said == Dead)
  {
    var (b, settled, gone) := Remembering(a, h, t, u, c);
    RememberingSettles(a, h, t, u, c);
    TopSettles(a, h, t, u, c);
    if settled.None? {
      RememberingForgets(a, h, t, u, c);
      BuySays(p, b, h, t, u, c);
    }
  }

  lemma {:induction false} BuySays(p: Budget.Policy, a: Account, h: Hash, t: Target, u: Answers, c: Clock)
    ensures var r, said := Of(a, h), Buy(p, a, h, t, u, c).outcome;
            if GivenUp(r, c.sent) then said == Dead
            else if !Over(r.attempt, c.sent) then said == Coming
            else if !Over(r.refused, c.sent) || !Over(a.refused, c.sent) then said == Unavailable
            else if u.clockSpent || !HasRoom(p, a.stamps, t.prefetch, c.sent) then said == Busy
            else u.add.NotBuilt? ==> said == Dead
  {
  }

  /** What a torrent asked for its files, and for a link, lets a resolve say: a link, if it gives one; that the pack holds
      other episodes; that it is gone, or dead when there is no link to it; and unavailable when TorBox refuses, or has
      no list of its files to pick from. */
  lemma {:induction false} HoldSays(a: Account, h: Hash, t: Target, id: int, list: ListAnswer, picks: bool,
                                    link: LinkAnswer, listed: Time, linked: Time)
    ensures var said := Hold(a, h, t, id, list, picks, link, listed, linked).1;
            var files := t.needFiles ==> list == Listed(true);
            (said == Link <==> GivesLink(t, list, picks, link)) && (said == Gone <==> SaidGone(t, list, picks, link))
            && (said == WrongPack <==> files && !picks) && (said == Dead <==> files && picks && link.NoLink?)
            && (said == Unavailable <==> (files && picks && link.LinkRefused?) || (!files && !list.ListGone?))
  {
  }

  /** And what one that sends says: a lost add failed; one whose answer cannot be read is coming, until the give-up; what
      TorBox refuses is unavailable and what it cannot add is dead; one in its queue waits; and a new torrent says what
      any torrent does, but dead when it is denied again at once. */
  lemma {:induction false} SaysAfterAdding(p: Budget.Policy, a: Account, h: Hash, t: Target, u: Answers, c: Clock)
    requires Ticks(c) && Unhindered(a, h, t, u, c) && !t.noAdd && !u.clockSpent && !u.add.NotBuilt?
    requires HasRoom(p, a.stamps, t.prefetch, c.sent) && Over(Of(a, h).id, c.warmed)
    ensures var said := Resolve(p, a, h, t, u, c).outcome;
            match u.add
            case Lost(_) => said == Failed
            case Unread(_) => said == if GivenUp(Of(a, h), c.answered) then Dead else Coming
            case Rejected(refused, account) => said == if refused || account then Unavailable else Dead
            case NoId(_) => said == Dead
            case _ => if Adds(u.add) then NewSays(t, u, said) else said == Waiting
  {
    TopSettles(a, h, t, u, c);
    BuySends(p, a, h, t, u, c);
    if !u.add.Lost? && !u.add.Unread? {
      AnswerSays(With(Charge(a, p, c.sent), h, NoteAttempt(Of(a, h), c.sent)), h, t, u, c);
    }
  }

  predicate NewSays(t: Target, u: Answers, said: Outcome) {
    var files := t.needFiles ==> u.lastList == Listed(true);
    (said == Link <==> GivesLink(t, u.lastList, u.lastPicks, u.lastLink))
    && (said == WrongPack <==> files && !u.lastPicks)
    && (said == Dead <==> SaidGone(t, u.lastList, u.lastPicks, u.lastLink) || (files && u.lastPicks && u.lastLink.NoLink?))
    && (said == Unavailable <==> (files && u.lastPicks && u.lastLink.LinkRefused?) || (!files && !u.lastList.ListGone?))
  }

  lemma {:induction false} AnswerSays(a: Account, h: Hash, t: Target, u: Answers, c: Clock)
    requires !u.add.NotBuilt? && !u.add.Lost? && !u.add.Unread?
    ensures Adds(u.add) ==> NewSays(t, u, AfterAnswer(a, h, t, u, c).1)
  {
  }

  // ---- what a resolve leaves behind ----

  /** A refusal lasts a minute: one of the account for every release, another for this release, and the latter is not
      noted for a caller who may not add. */
  ghost predicate TurnsAway(a: Account, b: Account, h: Hash, account: bool, noAdd: bool, at: Time) {
    var until := Some(Entry(true, at + MINUTE));
    if account then b == a.(refused := until)
    else if noAdd then b == a
    else b.refused == a.refused && b.stamps == a.stamps && Of(b, h) == Of(a, h).(refused := until)
  }

  /** The account once a torrent that is held was asked for its files: its id is remembered for six hours, and its pack,
      where no files are needed or they came. */
  ghost predicate Keeps(a: Account, b: Account, h: Hash, id: int, needFiles: bool, files: bool, at: Time) {
    var r := Of(a, h).(id := Some(Entry(id, at + 6 * HOUR)));
    b.refused == a.refused && b.stamps == a.stamps
    && Of(b, h) == if !needFiles || files then r.(warm := Some(Entry(Warm(id, needFiles), at + 6 * HOUR))) else r
  }

  /** What asking a held torrent leaves: nothing if the list says it is gone; the id and a refusal of the account if the
      list says that; else what was learned, and then what the link said: gone forgets the torrent, a refusal is one. */
  lemma {:induction false} HoldLeaves(a: Account, h: Hash, t: Target, id: int, list: ListAnswer, picks: bool,
                                      link: LinkAnswer, listed: Time, linked: Time)
    ensures var b := Hold(a, h, t, id, list, picks, link, listed, linked).0;
            var files := list == Listed(true);
            if t.needFiles && list.ListGone? then b == a
            else if t.needFiles && list == ListRefused(true) then
              b.refused == Some(Entry(true, listed + MINUTE)) && b.stamps == a.stamps
              && Of(b, h) == Of(a, h).(id := Some(Entry(id, listed + 6 * HOUR)))
            else if (t.needFiles && !files) || !picks || link.Linked? || link.NoLink? then
              Keeps(a, b, h, id, t.needFiles, files, listed)
            else exists k: Account ::
              Keeps(a, k, h, id, t.needFiles, files, listed)
              && if link.LinkGone? then
                   b.refused == k.refused && b.stamps == k.stamps
                   && Of(b, h) == Of(k, h).(id := None, warm := None, ours := None)
                 else TurnsAway(k, b, h, link.account, t.noAdd, linked)
  {
    var b := Hold(a, h, t, id, list, picks, link, listed, linked).0;
    var full := t.needFiles && list == Listed(true);
    if (!t.needFiles || full) && picks && !link.Linked? && !link.NoLink? {
      var warmed := With(a, h, Of(a, h).(warm := Put(Warm(id, full), listed, RESOLVE_CACHE_TTL)));
      var k := RememberId(warmed, h, id, listed);
      assert Keeps(a, k, h, id, t.needFiles, list == Listed(true), listed);
    }
  }

  /** What its held torrent may tell a resolve: it is not gone, is served or refused, and that is what is left. */
  lemma {:induction false} HeldLeaves(p: Budget.Policy, a: Account, h: Hash, t: Target, u: Answers, c: Clock)
    requires !TurnedAway(a, h, t, c.top) && !WarmServes(Of(a, h), t, u, c.top) && HeldServes(Of(a, h), t, u, c.warmed)
    ensures var r := Resolve(p, a, h, t, u, c);
            (r.account, r.outcome)
            == Hold(a, h, t, Of(a, h).id.value.value, u.heldList, u.heldPicks, u.heldLink, c.listed, c.linked)
            && r.events == []
  {
    TopSettles(a, h, t, u, c);
    HoldGone(a, h, t, Of(a, h).id.value.value, u.heldList, u.heldPicks, u.heldLink, c.listed, c.linked);
  }

  /** What a remembered pack that answers leaves, and says. */
  lemma {:induction false} WarmLeaves(p: Budget.Policy, a: Account, h: Hash, t: Target, u: Answers, c: Clock)
    requires !TurnedAway(a, h, t, c.top) && WarmServes(Of(a, h), t, u, c.top)
    ensures var r := Resolve(p, a, h, t, u, c);
            r.events == []
            && if !u.warmPicks then r.outcome == WrongPack && r.account == a
               else if u.warmLink.Linked? then r.outcome == Link && r.account == a
               else r.outcome == Unavailable && TurnsAway(a, r.account, h, u.warmLink.account, t.noAdd, c.warmed)
  {
  }

  /** The listing, when neither an id nor a recent miss is remembered: it is read for a torrent, whose id is remembered for
      six hours and settles any add in flight, or else the miss is, for fifteen seconds. */
  lemma {:induction false} LookUpLeaves(a: Account, h: Hash, answer: LookupAnswer, now: Time)
    ensures var r, (b, id, sure) := Of(a, h), LookUp(a, h, answer, now);
            b.refused == a.refused && b.stamps == a.stamps
            && if !Over(r.id, now) then b == a && id == Some(r.id.value.value) && sure
               else if !Over(r.miss, now) then b == a && id == None && sure
               else match answer
                 case Found(n) =>
                   id == Some(n) && sure
                   && Of(b, h) == r.(id := Some(Entry(n, now + 6 * HOUR)), attempt := None, unknown := None)
                 case Missing => id == None && sure && Of(b, h) == r.(miss := Some(Entry(true, now + 15 * SECOND)))
                 case Unreadable => b == a && id == None && !sure
  {
  }

  /** What a parked add that is asked about leaves: it is forgotten once its torrent is found, which is then held. */
  lemma {:induction false} ParkedLeaves(p: Budget.Policy, a: Account, h: Hash, t: Target, u: Answers, c: Clock)
    requires Ticks(c) && !TurnedAway(a, h, t, c.top) && !WarmServes(Of(a, h), t, u, c.top)
    requires Over(Of(a, h).id, c.warmed) && !Over(Of(a, h).queued, c.linked)
    ensures var r := Resolve(p, a, h, t, u, c);
            var (b, id, _) := LookUp(a, h, u.lookup, c.looked);
            if id.None? then r.account == b && r.events == []
            else exists k: Account :: k.refused == b.refused && k.stamps == b.stamps && Of(k, h) == Of(b, h).(queued := None)
                   && (r.account, r.outcome) == Hold(k, h, t, id.value, u.lastList, u.lastPicks, u.lastLink, c.relisted, c.relinked)
                   && r.events == if r.outcome == Gone && Of(r.account, h).id.None? then [Forgotten(h)] else []
  {
    TopSettles(a, h, t, u, c);
    var (b, id, _) := LookUp(a, h, u.lookup, c.looked);
    if id.Some? {
      var k := With(b, h, Of(b, h).(queued := None));
      assert k.refused == b.refused && k.stamps == b.stamps && Of(k, h) == Of(b, h).(queued := None);
    }
  }

  /** What an add that was sent and not answered leaves: it is out for ninety seconds, and the first silence, unless the
      viewer went away, is remembered for half an hour; but past the ninety seconds it is a refusal. */
  ghost predicate LeavesSilence(r: Release, after: Release, add: AddAnswer, sent: Time, answered: Time)
    requires add.Lost? || add.Unread?
  {
    var out := r.(attempt := Some(Entry(true, sent + 90 * SECOND)), miss := None);
    var stamped := if Over(r.unknown, answered)
                   then out.(unknown := Some(Entry(answered / SECOND, answered + 30 * MINUTE))) else out;
    var refused := out.(refused := Some(Entry(true, answered + MINUTE)));
    if add.Lost? then
      after == if add.cancelled then out else if answered <= sent + 90 * SECOND then stamped else refused
    else if GivenUp(r, answered) then after == if answered <= sent + 90 * SECOND then out else refused
    else after == if add.cancelled then out else stamped
  }

  /** And one that was answered: nothing is out any more, and no silence is remembered. Then a refusal is noted for a
      minute, a queue entry for six hours as ours, and a torrent is ours, and is asked for its link. */
  ghost predicate LeavesAnswer(a: Account, b: Account, h: Hash, r: Release, t: Target, u: Answers, c: Clock) {
    var settled := r.(attempt := None, unknown := None, miss := None);
    var ours := settled.(ours := Some(Entry(true, c.answered + 6 * HOUR)));
    match u.add
    case Rejected(_, account) =>
      if account then b.refused == Some(Entry(true, c.answered + MINUTE)) && Of(b, h) == settled
      else b.refused == a.refused && Of(b, h) == settled.(refused := Some(Entry(true, c.answered + MINUTE)))
    case NoId(_) =>
      b.refused == a.refused && Of(b, h) == settled.(refused := Some(Entry(true, c.answered + MINUTE)))
    case Created(id) => LeavesNew(ours, a, b, h, t, id, u, c)
    case AlreadyQueued(q) => LeavesQueued(ours, q, a, b, h, t, u, c)
    case Parked(q) => LeavesQueued(ours, q, a, b, h, t, u, c)
    case _ => true
  }

  ghost predicate LeavesQueued(r: Release, q: int, a: Account, b: Account, h: Hash, t: Target, u: Answers, c: Clock) {
    var queued := r.(queued := Some(Entry(q, c.answered + 6 * HOUR)));
    if q != 0 then b.refused == a.refused && Of(b, h) == queued else LeavesNew(queued, a, b, h, t, 0, u, c)
  }

  /** A new torrent is held like any other; one that is denied again at once is refused for a minute. */
  ghost predicate LeavesNew(r: Release, a: Account, b: Account, h: Hash, t: Target, id: int, u: Answers, c: Clock) {
    exists k: Account :: k.refused == a.refused && Of(k, h) == r && LeavesHeld(k, b, h, t, id, u, c)
  }

  ghost predicate LeavesHeld(k: Account, b: Account, h: Hash, t: Target, id: int, u: Answers, c: Clock) {
    var held := Hold(k, h, t, id, u.lastList, u.lastPicks, u.lastLink, c.relisted, c.relinked).0;
    if SaidGone(t, u.lastList, u.lastPicks, u.lastLink) then
      b.refused == held.refused && Of(b, h) == Of(held, h).(refused := Some(Entry(true, c.relinked + MINUTE)))
    else b == held
  }

  lemma {:induction false} SilenceLeaves(p: Budget.Policy, a: Account, h: Hash, t: Target, u: Answers, c: Clock)
    requires Ticks(c) && |Buy(p, a, h, t, u, c).events| > 0 && (u.add.Lost? || u.add.Unread?)
    ensures var b := Buy(p, a, h, t, u, c).account;
            b.refused == a.refused && LeavesSilence(Of(a, h), Of(b, h), u.add, c.sent, c.answered)
  {
  }

  lemma {:induction false} NewLeaves(k: Account, h: Hash, t: Target, id: int, u: Answers, c: Clock)
    ensures LeavesHeld(k, HoldNew(k, h, t, id, u, c).0, h, t, id, u, c)
  {
    HoldGone(k, h, t, id, u.lastList, u.lastPicks, u.lastLink, c.relisted, c.relinked);
  }

  lemma {:induction false} ParkLeaves(a: Account, b: Account, h: Hash, r: Release, q: int, t: Target, u: Answers, c: Clock)
    requires b.refused == a.refused && Of(b, h) == r
    ensures LeavesQueued(r.(ours := Some(Entry(true, c.answered + 6 * HOUR))), q, a, Park(b, h, t, q, u, c).0, h, t, u, c)
  {
    var k := With(b, h, Of(b, h).(ours := Put(true, c.answered, RESOLVE_CACHE_TTL),
                                  queued := Put(q, c.answered, RESOLVE_CACHE_TTL)));
    if q == 0 {
      NewLeaves(k, h, t, 0, u, c);
    }
  }

  lemma {:induction false} AnswerLeaves(a: Account, h: Hash, t: Target, u: Answers, c: Clock)
    requires !u.add.NotBuilt? && !u.add.Lost? && !u.add.Unread? && Of(a, h).miss.None?
    ensures LeavesAnswer(a, AfterAnswer(a, h, t, u, c).0, h, Of(a, h), t, u, c)
  {
    var b := With(a, h, Settle(Of(a, h)));
    match u.add
    case Created(id) => NewLeaves(With(b, h, Of(b, h).(ours := Put(true, c.answered, RESOLVE_CACHE_TTL))), h, t, id, u, c);
    case AlreadyQueued(q) => ParkLeaves(a, GiveBack(b), h, Settle(Of(a, h)), q, t, u, c);
    case Parked(q) => ParkLeaves(a, b, h, Settle(Of(a, h)), q, t, u, c);
    case _ =>
  }

  /** What an add leaves behind, whatever became of it. */
  lemma {:induction false} AddLeaves(p: Budget.Policy, a: Account, h: Hash, t: Target, u: Answers, c: Clock)
    requires Ticks(c) && Unhindered(a, h, t, u, c) && !t.noAdd && !u.clockSpent && !u.add.NotBuilt?
    requires HasRoom(p, a.stamps, t.prefetch, c.sent) && Over(Of(a, h).id, c.warmed)
    ensures var b := Resolve(p, a, h, t, u, c).account;
            if u.add.Lost? || u.add.Unread? then
              b.refused == a.refused && LeavesSilence(Of(a, h), Of(b, h), u.add, c.sent, c.answered)
            else LeavesAnswer(a, b, h, Of(a, h), t, u, c)
  {
    TopSettles(a, h, t, u, c);
    BuySends(p, a, h, t, u, c);
    if u.add.Lost? || u.add.Unread? {
      SilenceLeaves(p, a, h, t, u, c);
    } else {
      var noted := With(Charge(a, p, c.sent), h, NoteAttempt(Of(a, h), c.sent));
      AnswerLeaves(noted, h, t, u, c);
    }
  }

  /** One whose request could not be built is refused for a minute, and nothing is out. */
  lemma {:induction false} UnbuiltLeaves(p: Budget.Policy, a: Account, h: Hash, t: Target, u: Answers, c: Clock)
    requires Ticks(c) && Unhindered(a, h, t, u, c) && !t.noAdd && !u.clockSpent && u.add.NotBuilt?
    requires HasRoom(p, a.stamps, t.prefetch, c.sent) && Over(Of(a, h).id, c.warmed)
    ensures var b := Resolve(p, a, h, t, u, c).account;
            b.refused == a.refused && Of(b, h) == Of(a, h).(refused := Some(Entry(true, c.answered + MINUTE)))
  {
    TopSettles(a, h, t, u, c);
  }

  /** What a status read leaves: nothing while an add is parked; else what the listing says, and, when that has no torrent
      and no recent look at TorBox's queue found nothing, what the queue says: an entry for six hours, or its lack for
      fifteen seconds. */
  lemma {:induction false} StatusLeaves(a: Account, h: Hash, lookup: LookupAnswer, inQueue: LookupAnswer, now: Time)
    ensures var b, (looked, id, sure) := Status(a, h, lookup, inQueue, now), LookUp(a, h, lookup, now);
            b.refused == a.refused && b.stamps == a.stamps
            && if !Over(Of(a, h).queued, now) then b == a
               else if id.Some? || !sure || !Over(Of(looked, h).queueMiss, now) || inQueue.Unreadable? then b == looked
               else if inQueue.Found? then
                 Of(b, h) == Of(looked, h).(queued := Some(Entry(inQueue.id, now + 6 * HOUR)))
               else Of(b, h) == Of(looked, h).(queueMiss := Some(Entry(true, now + 15 * SECOND)))
  {
  }

  // ---- what is deleted ----

  /** Exactly when a cancel deletes: TorBox accepts it, it was not only a reannounce, and the add is parked and ours, or
      else its torrent is being fetched and is ours or stalled. */
  lemma {:induction false} CancelsExactly(a: Account, h: Hash, reannounce: bool, lookup: LookupAnswer, entry: EntryAnswer,
                                          deleted: bool, now: Time)
    ensures var r, (b, events) := Of(a, h), Cancel(a, h, reannounce, lookup, entry, deleted, now);
            var known := !Over(r.id, now) || (Over(r.miss, now) && lookup.Found?);
            events == (if deleted && !reannounce
                          && (if !Over(r.queued, now) then !Over(r.ours, now)
                              else known && entry.Fetching? && (entry.stalled || !Over(r.ours, now)))
                       then [Cancelled(h)]
                       else if Over(r.queued, now) && known && entry.NoEntry? then [Forgotten(h)]
                       else [])
            && (events != [] ==> Over(Of(b, h).ours, now))
            && (events == [] ==> Of(b, h).ours == r.ours)
  {
  }

  /** What a cancel leaves: a parked add it deleted is no longer remembered; else what the listing says is, but not a
      torrent that TorBox no longer has or that it deleted. */
  lemma {:induction false} CancelLeaves(a: Account, h: Hash, reannounce: bool, lookup: LookupAnswer, entry: EntryAnswer,
                                        deleted: bool, now: Time)
    ensures var (b, events) := Cancel(a, h, reannounce, lookup, entry, deleted, now);
            var looked := LookUp(a, h, lookup, now).0;
            b.refused == a.refused && b.stamps == a.stamps
            && if !Over(Of(a, h).queued, now) then
                 Of(b, h) == if events == [] then Of(a, h) else Of(a, h).(queued := None, ours := None)
               else Of(b, h) == if events == [] then Of(looked, h) else Of(looked, h).(id := None, warm := None, ours := None)
  {
  }

  /** An operation names a torrent as ours only when it sent its add. */
  ghost predicate OursOnlyByAdding(a: Account, b: Account, events: seq<Event>, h: Hash) {
    Of(b, h).ours.Some? ==> Of(a, h).ours.Some? || Adding(events, h)
  }

  ghost predicate Adding(history: seq<Event>, h: Hash) {
    exists i :: 0 <= i < |history| && history[i].Sent? && history[i].key == h
  }

  lemma {:induction false} HoldOurs(a: Account, h: Hash, t: Target, id: int, list: ListAnswer, picks: bool,
                                    link: LinkAnswer, listed: Time, linked: Time)
    ensures var b := Hold(a, h, t, id, list, picks, link, listed, linked).0;
            Of(b, h).ours.Some? ==> Of(a, h).ours.Some?
  {
  }

  lemma {:induction false} RememberingOurs(a: Account, h: Hash, t: Target, u: Answers, c: Clock)
    ensures Of(Remembering(a, h, t, u, c).0, h).ours.Some? ==> Of(a, h).ours.Some?
  {
    TopSettlesOurs(a, h, t, u, c);
    var b := Top(a, h, t, u, c).0;
    if !Over(Of(b, h).id, c.warmed) {
      HoldOurs(b, h, t, Of(b, h).id.value.value, u.heldList, u.heldPicks, u.heldLink, c.listed, c.linked);
    }
  }

  lemma {:induction false} TopSettlesOurs(a: Account, h: Hash, t: Target, u: Answers, c: Clock)
    ensures Of(Top(a, h, t, u, c).0, h).ours == Of(a, h).ours
  {
  }

  lemma {:induction false} UnheldOurs(p: Budget.Policy, a: Account, h: Hash, t: Target, u: Answers, c: Clock)
    ensures var r := Unheld(p, a, h, t, u, c);
            Of(r.account, h).ours.Some? ==> Of(a, h).ours.Some? || EndsInAdd(r.events, h, c.sent, u.add)
  {
    BuySends(p, a, h, t, u, c);
    BuyOurs(p, a, h, t, u, c);
    PromoteOurs(a, h, t, u, c);
  }

  lemma {:induction false} PromoteOurs(a: Account, h: Hash, t: Target, u: Answers, c: Clock)
    ensures Of(Promote(a, h, t, u, c).account, h).ours.Some? ==> Of(a, h).ours.Some?
  {
    var (b, id, _) := LookUp(a, h, u.lookup, c.looked);
    if id.Some? {
      var unparked := With(b, h, Of(b, h).(queued := None));
      HoldOurs(unparked, h, t, id.value, u.lastList, u.lastPicks, u.lastLink, c.relisted, c.relinked);
    }
  }

  lemma {:induction false} BuyOurs(p: Budget.Policy, a: Account, h: Hash, t: Target, u: Answers, c: Clock)
    ensures var r := Buy(p, a, h, t, u, c); |r.events| == 0 ==> Of(r.account, h).ours == Of(a, h).ours
  {
  }

  lemma {:induction false} StepOurs(p: Budget.Policy, a: Account, op: Op, h: Hash)
    requires op.Poll? ==> Ticks(op.clock)
    ensures var (b, events) := Step(p, a, op); OursOnlyByAdding(a, b, events, h)
  {
    if op.hash != h {
      OthersUntouched(p, a, op, h, Begins(op));
    } else if op.Poll? {
      var (b, settled, gone) := Remembering(a, h, op.target, op.answers, op.clock);
      RememberingOurs(a, h, op.target, op.answers, op.clock);
      UnheldOurs(p, b, h, op.target, op.answers, op.clock);
      var events := Resolve(p, a, h, op.target, op.answers, op.clock).events;
      if settled.None? && EndsInAdd(Unheld(p, b, h, op.target, op.answers, op.clock).events, h, op.clock.sent, op.answers.add) {
        assert events[|events| - 1].Sent? && events[|events| - 1].key == h;
      }
    } else if op.Drop? {
      CancelsExactly(a, h, op.reannounce, op.lookup, op.entry, op.deleted, op.now);
    }
  }

  lemma {:induction false} RunOurs(p: Budget.Policy, a: Account, ops: seq<Op>, n: nat, start: Time, h: Hash)
    requires n <= |ops| && WellTimed(ops, n, start) && Of(a, h).ours.None?
    ensures var (b, history) := Run(p, a, ops, n); Of(b, h).ours.Some? ==> Adding(history, h)
  {
    if n > 0 {
      RunOurs(p, a, ops, n - 1, start, h);
      var (before, history) := Run(p, a, ops, n - 1);
      var (after, events) := Step(p, before, ops[n - 1]);
      StepOurs(p, before, ops[n - 1], h);
      AddingAppend(history, events, h);
    }
  }

  lemma {:induction false} AddingAppend(x: seq<Event>, y: seq<Event>, h: Hash)
    ensures Adding(x, h) || Adding(y, h) ==> Adding(x + y, h)
  {
    if Adding(x, h) {
      var i :| 0 <= i < |x| && x[i].Sent? && x[i].key == h;
      assert (x + y)[i] == x[i];
    } else if Adding(y, h) {
      var i :| 0 <= i < |y| && y[i].Sent? && y[i].key == h;
      assert (x + y)[|x| + i] == y[i];
    }
  }

  /** What the user already had is left alone: after every run that starts with nothing of the release marked as ours, a
      cancel deletes its torrent only if scout sent an add of it in that run, or the torrent is stalled; and never one
      that is finished. */
  lemma {:induction false} CancelsOnlyOurs(p: Budget.Policy, a: Account, ops: seq<Op>, start: Time, h: Hash,
                                           reannounce: bool, lookup: LookupAnswer, entry: EntryAnswer, deleted: bool,
                                           now: Time)
    requires WellTimed(ops, |ops|, start) && Of(a, h).ours.None?
    ensures var (b, history) := Run(p, a, ops, |ops|);
            Cancelled(h) in Cancel(b, h, reannounce, lookup, entry, deleted, now).1 ==>
              (Adding(history, h) || (entry == Fetching(true) && Over(Of(b, h).queued, now)))
              && (Over(Of(b, h).queued, now) ==> entry.Fetching?)
  {
    RunOurs(p, a, ops, |ops|, start, h);
    CancelsExactly(Run(p, a, ops, |ops|).0, h, reannounce, lookup, entry, deleted, now);
  }

  // ---- giving up ----

  /** An operation that leaves this release's adds unanswered: an add of it, if one goes out, is lost or unreadable,
      not cancelled, and takes at most `length`; and the listing never shows its torrent. */
  predicate Silent(op: Op, h: Hash, length: Time) {
    op.hash == h ==>
      match op
      case Poll(_, _, u, c) =>
        !u.lookup.Found? && (u.add == Lost(false) || u.add == Unread(false)) && c.answered - c.sent <= length
      case Ask(_, lookup, _, _) => !lookup.Found?
      case Drop(_, _, lookup, _, _, _) => !lookup.Found?
  }

  /** The add an operation sent of this release. */
  function SentAt(events: seq<Event>, h: Hash): Option<Time> {
    var n := |events|;
    if n > 0 && events[n - 1].Sent? && events[n - 1].key == h then Some(events[n - 1].at) else None
  }

  /** The adds of a release sent under its newest unknown-outcome stamp, oldest first: the one whose silence was
      stamped, and those sent while the stamp lived. */
  function UnderStamp(p: Budget.Policy, a: Account, ops: seq<Op>, n: nat, h: Hash): seq<Time>
    requires n <= |ops|
  {
    if n == 0 then [] else
      var sent := SentAt(Step(p, Run(p, a, ops, n - 1).0, ops[n - 1]).1, h);
      if sent.None? then UnderStamp(p, a, ops, n - 1, h)
      else if Live(Of(Run(p, a, ops, n - 1).0, h).unknown, sent.value)
      then UnderStamp(p, a, ops, n - 1, h) + [sent.value]
      else [sent.value]
  }

  /** How the two markers of a release may change in silence. */
  ghost predicate Marks(r: Release, q: Release, sent: Option<Time>, length: Time) {
    if sent.None? then q.attempt == r.attempt && q.unknown == r.unknown
    else
      var t := sent.value;
      !Live(r.attempt, t) && q.attempt == Some(Entry(true, t + ATTEMPT_TTL))
      && if Live(r.unknown, t) then q.unknown == r.unknown && t - r.unknown.value.value * SECOND <= ADD_GIVE_UP
         else exists noted | t <= noted <= t + length :: q.unknown == Put(noted / SECOND, noted, UNKNOWN_OUTCOME_TTL)
  }

  lemma {:induction false} HoldMarks(a: Account, h: Hash, t: Target, id: int, list: ListAnswer, picks: bool,
                                     link: LinkAnswer, listed: Time, linked: Time)
    ensures var r := Of(Hold(a, h, t, id, list, picks, link, listed, linked).0, h);
            r.attempt == Of(a, h).attempt && r.unknown == Of(a, h).unknown
  {
  }

  lemma {:induction false} RememberingMarks(a: Account, h: Hash, t: Target, u: Answers, c: Clock)
    ensures var r := Of(Remembering(a, h, t, u, c).0, h);
            r.attempt == Of(a, h).attempt && r.unknown == Of(a, h).unknown
  {
    var (b, settled) := Top(a, h, t, u, c);
    if settled.None? && Live(Of(b, h).id, c.warmed) {
      HoldMarks(b, h, t, Of(b, h).id.value.value, u.heldList, u.heldPicks, u.heldLink, c.listed, c.linked);
    }
  }

  lemma {:induction false} PromoteMarks(a: Account, h: Hash, t: Target, u: Answers, c: Clock)
    requires !u.lookup.Found?
    ensures var r := Promote(a, h, t, u, c);
            Marks(Of(a, h), Of(r.account, h), None, 0) && SentAt(r.events, h) == None
  {
    var (b, id, _) := LookUp(a, h, u.lookup, c.looked);
    if id.Some? {
      var d := With(b, h, Of(b, h).(queued := None));
      HoldMarks(d, h, t, id.value, u.lastList, u.lastPicks, u.lastLink, c.relisted, c.relinked);
    }
  }

  lemma {:induction false} BuyMarks(p: Budget.Policy, a: Account, h: Hash, t: Target, u: Answers, c: Clock,
                                    length: Time)
    requires Ticks(c) && (u.add == Lost(false) || u.add == Unread(false)) && c.answered - c.sent <= length <= ATTEMPT_TTL
    requires Of(a, h).unknown.Some? ==>
               Of(a, h).unknown.value.expires >= Of(a, h).unknown.value.value * SECOND + UNKNOWN_OUTCOME_TTL
    ensures var r := Buy(p, a, h, t, u, c); Marks(Of(a, h), Of(r.account, h), SentAt(r.events, h), length)
  {
  }

  ghost predicate StampDated(r: Release) {
    r.unknown.Some? ==> r.unknown.value.expires >= r.unknown.value.value * SECOND + UNKNOWN_OUTCOME_TTL
  }

  lemma {:induction false} PollMarks(p: Budget.Policy, a: Account, h: Hash, t: Target, u: Answers, c: Clock,
                                     length: Time)
    requires Ticks(c) && !u.lookup.Found? && (u.add == Lost(false) || u.add == Unread(false))
    requires c.answered - c.sent <= length <= ATTEMPT_TTL && StampDated(Of(a, h))
    ensures var r := Resolve(p, a, h, t, u, c); Marks(Of(a, h), Of(r.account, h), SentAt(r.events, h), length)
  {
    var b := Remembering(a, h, t, u, c).0;
    RememberingMarks(a, h, t, u, c);
    if Live(Of(b, h).queued, c.linked) {
      PromoteMarks(b, h, t, u, c);
    } else if !t.noAdd {
      BuyMarks(p, b, h, t, u, c, length);
    }
  }

  lemma {:induction false} StepMarks(p: Budget.Policy, a: Account, op: Op, h: Hash, length: Time)
    requires (op.Poll? ==> Ticks(op.clock)) && Silent(op, h, length) && 0 <= length <= ATTEMPT_TTL
    requires StampDated(Of(a, h))
    ensures var (b, events) := Step(p, a, op); Marks(Of(a, h), Of(b, h), SentAt(events, h), length)
  {
    if op.hash != h {
      OthersUntouched(p, a, op, h, Begins(op));
    } else if op.Poll? {
      PollMarks(p, a, h, op.target, op.answers, op.clock, length);
    }
  }

  /** What the markers say of the adds under the newest stamp: each came after the last one's marker expired, and
      none but the first after the stamp's give-up. */
  ghost predicate Stamped(r: Release, sends: seq<Time>, length: Time) {
    var k := |sends|;
    if k == 0 then r.unknown.None?
    else
      r.attempt == Some(Entry(true, sends[k - 1] + ATTEMPT_TTL))
      && sends[k - 1] - sends[0] >= (k - 1) * (ATTEMPT_TTL + 1)
      && exists noted | sends[0] <= noted <= sends[0] + length ::
           r.unknown == Put(noted / SECOND, noted, UNKNOWN_OUTCOME_TTL)
           && (k > 1 ==> sends[k - 1] <= noted + ADD_GIVE_UP)
  }

  lemma {:induction false} StampedStep(r: Release, q: Release, sends: seq<Time>, sent: Option<Time>, length: Time)
    requires Stamped(r, sends, length) && Marks(r, q, sent, length) && length >= 0
    ensures Stamped(q, if sent.None? then sends
                       else if Live(r.unknown, sent.value) then sends + [sent.value]
                       else [sent.value], length)
  {
    if sent.Some? && Live(r.unknown, sent.value) {
      var k, t := |sends|, sent.value;
      var more := sends + [t];
      var noted :| sends[0] <= noted <= sends[0] + length
                   && r.unknown == Put(noted / SECOND, noted, UNKNOWN_OUTCOME_TTL);
      assert t > sends[k - 1] + ATTEMPT_TTL;
      assert more[0] == sends[0] && more[k] == t;
      assert k * (ATTEMPT_TTL + 1) == (k - 1) * (ATTEMPT_TTL + 1) + (ATTEMPT_TTL + 1);
      assert noted / SECOND * SECOND <= noted;
    }
  }

  lemma {:induction false} StampedIsDated(r: Release, sends: seq<Time>, length: Time)
    requires Stamped(r, sends, length)
    ensures StampDated(r)
  {
  }

  ghost predicate AllSilent(ops: seq<Op>, n: nat, h: Hash, length: Time)
    requires n <= |ops|
  {
    n == 0 || (AllSilent(ops, n - 1, h, length) && Silent(ops[n - 1], h, length))
  }

  lemma {:induction false} RunStamped(p: Budget.Policy, a: Account, ops: seq<Op>, n: nat, start: Time, h: Hash,
                                      length: Time)
    requires n <= |ops| && WellTimed(ops, n, start) && AllSilent(ops, n, h, length)
    requires Of(a, h).unknown.None? && 0 <= length <= ATTEMPT_TTL
    ensures Stamped(Of(Run(p, a, ops, n).0, h), UnderStamp(p, a, ops, n, h), length)
  {
    if n > 0 {
      RunStamped(p, a, ops, n - 1, start, h, length);
      var before, sends := Run(p, a, ops, n - 1).0, UnderStamp(p, a, ops, n - 1, h);
      StampedIsDated(Of(before, h), sends, length);
      StepMarks(p, before, ops[n - 1], h, length);
      var (after, events) := Step(p, before, ops[n - 1]);
      StampedStep(Of(before, h), Of(after, h), sends, SentAt(events, h), length);
    }
  }

  /** The give-up: in every run in which TorBox stays silent about a release, however often it is polled, the adds
      sent under one unknown-outcome stamp are bounded by the give-up and by how long an unanswered request takes:
      seven when one takes at most thirty seconds, eight within the 45 seconds a resolve has. */
  lemma {:induction false} GivesUp(p: Budget.Policy, a: Account, ops: seq<Op>, start: Time, h: Hash, length: Time)
    requires WellTimed(ops, |ops|, start) && AllSilent(ops, |ops|, h, length)
    requires Of(a, h).unknown.None? && 0 <= length <= ATTEMPT_TTL
    ensures var n := |UnderStamp(p, a, ops, |ops|, h)|;
            (n > 1 ==> (n - 1) * ATTEMPT_TTL < ADD_GIVE_UP + length)
            && (length <= 30 * SECOND ==> n <= 7) && (length <= 45 * SECOND ==> n <= 8)
  {
    RunStamped(p, a, ops, |ops|, start, h, length);
    StampedBound(Of(Run(p, a, ops, |ops|).0, h), UnderStamp(p, a, ops, |ops|, h), length);
  }

  lemma {:induction false} StampedBound(r: Release, sends: seq<Time>, length: Time)
    requires Stamped(r, sends, length)
    ensures var n := |sends|;
            (n > 1 ==> (n - 1) * ATTEMPT_TTL < ADD_GIVE_UP + length)
            && (length <= 30 * SECOND ==> n <= 7) && (length <= 45 * SECOND ==> n <= 8)
  {
  }

  /** After the give-up: in such a run the next add of the release either comes within the give-up of the first
      one's silence, or waits until the stamp has lived its thirty minutes out. */
  lemma {:induction false} SilentAfterGivingUp(p: Budget.Policy, a: Account, ops: seq<Op>, start: Time, h: Hash,
                                               length: Time, next: Op)
    requires WellTimed(ops, |ops|, start) && AllSilent(ops, |ops|, h, length)
    requires Of(a, h).unknown.None? && 0 <= length <= ATTEMPT_TTL
    requires (next.Poll? ==> Ticks(next.clock)) && Silent(next, h, length)
    ensures var sends, sent := UnderStamp(p, a, ops, |ops|, h), SentAt(Step(p, Run(p, a, ops, |ops|).0, next).1, h);
            |sends| > 0 && sent.Some? ==>
              sent.value <= sends[0] + length + ADD_GIVE_UP || sent.value > sends[0] + UNKNOWN_OUTCOME_TTL
  {
    var b, sends := Run(p, a, ops, |ops|).0, UnderStamp(p, a, ops, |ops|, h);
    RunStamped(p, a, ops, |ops|, start, h, length);
    StampedIsDated(Of(b, h), sends, length);
    StepMarks(p, b, next, h, length);
    var (after, events) := Step(p, b, next);
    if |sends| > 0 && SentAt(events, h).Some? {
      StampGap(Of(b, h), Of(after, h), sends, SentAt(events, h), length);
    }
  }

  lemma {:induction false} StampGap(r: Release, q: Release, sends: seq<Time>, sent: Option<Time>, length: Time)
    requires Stamped(r, sends, length) && Marks(r, q, sent, length) && |sends| > 0 && sent.Some?
    ensures sent.value <= sends[0] + length + ADD_GIVE_UP || sent.value > sends[0] + UNKNOWN_OUTCOME_TTL
  {
  }
}
