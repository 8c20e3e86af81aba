// The Real-Debrid store: its resolves, which remember a torrent by the file it was bought for, and the link it takes
// for a file (internal/scout/stores.go).
//
// The markers, the refusals and the charges are those of the add protocol. Resolves run one at a time, the cache is
// ideal, and what Real-Debrid answers is arbitrary.
module RealDebrid {
  import opened Common
  import Budget = AddBudget
  import opened Protocol = AddProtocol

  /** What a torrent is remembered under: the release and the episode or position asked for, as one key. */
  type File = string

  /** The account's memory: what every store keeps, and the torrent id bought for each file. */
  datatype Rd = Rd(core: Account, ids: map<File, Entry<int>>)

  function IdOf(a: Rd, file: File): Slot<int> {
    if file in a.ids then Some(a.ids[file]) else None
  }

  /** What info, selectFiles, the second info and unrestrict come to together. */
  datatype Chain =
    | Served
    | UnknownTorrent             // the first info: no such torrent
    | UnknownLater               // the second info: no such torrent
    | RefusedUs(account: bool)
    | NotInPack
    | NoLinkYet
    | Broken

  datatype AddReply =
    | NoReply(cancelled: bool)
    | NoBody(cancelled: bool)
    | NotAdded(refused: bool, account: bool) // an error, or no id: nothing was created
    | Added(id: int)

  datatype Replies = Replies(held: Chain, clockSpent: bool, add: AddReply, bought: Chain)

  datatype Times = Times(top: Time, sent: Time, answered: Time, read: Time)

  predicate Ordered(c: Times) {
    c.top <= c.sent <= c.answered <= c.read
  }

  datatype Polled = Polled(account: Rd, outcome: Outcome, events: seq<Event>)

  /** resolveExisting: the torrent a file was bought as. Only the first "no such torrent" forgets it. */
  function Existing(a: Rd, h: Hash, file: File, noAdd: bool, answer: Chain, now: Time): (Rd, Outcome) {
    match answer
    case Served => (a, Link)
    case UnknownTorrent => (a.(ids := a.ids - {file}), Gone)
    case UnknownLater => (a, Gone)
    case RefusedUs(account) => (a.(core := RecordRefusalFor(a.core, h, account, noAdd, now)), Unavailable)
    case NotInPack => (a, WrongPack)
    case NoLinkYet => (a, Dead)
    case Broken => (a, Failed)
  }

  /** An add that was not answered. Unlike TorBox's, a give-up found here records no refusal. */
  function Unanswered(a: Account, h: Hash, reply: AddReply, now: Time): (Account, Outcome)
    requires reply.NoReply? || reply.NoBody?
  {
    var r := Of(a, h);
    var noted := if reply.cancelled then a else With(a, h, NoteUnknown(r, now));
    if reply.NoReply? then
      (if Live(r.attempt, now) then noted else if reply.cancelled then a else RecordRefusal(a, h, false, now), Failed)
    else if TooLong(r, now) then (a, Dead)
    else (noted, Coming)
  }

  function Answered(a: Rd, h: Hash, file: File, noAdd: bool, u: Replies, c: Times): (Rd, Outcome)
    requires u.add.NotAdded? || u.add.Added?
  {
    var settled := With(a.core, h, Settle(Of(a.core, h)));
    match u.add
    case NotAdded(refused, account) =>
      (a.(core := RecordRefusal(GiveBack(settled), h, account, c.answered)), if refused || account then Unavailable else Dead)
    case Added(id) =>
      var known := Rd(settled, a.ids[file := Entry(id, c.answered + RESOLVE_CACHE_TTL)]);
      var (b, outcome) := Existing(known, h, file, noAdd, u.bought, c.read);
      if outcome == Gone then (b.(core := RecordRefusal(b.core, h, false, c.read)), Dead) else (b, outcome)
  }

  function Buying(p: Budget.Policy, a: Rd, h: Hash, file: File, prefetch: bool, u: Replies, c: Times): Polled {
    var r := Of(a.core, h);
    if TooLong(r, c.sent) then Polled(a, Dead, [])
    else if Live(r.attempt, c.sent) then Polled(a, Coming, [])
    else if BackedOff(a.core, h, c.sent) then Polled(a, Unavailable, [])
    else if u.clockSpent then Polled(a, Busy, [])
    else if !MayCharge(a.core, p, prefetch, c.sent) then Polled(a.(core := Drain(a.core, p, c.sent)), Busy, [])
    else
      var noted := With(Charge(a.core, p, c.sent), h, NoteAttempt(r, c.sent));
      var (b, outcome) := if u.add.NoReply? || u.add.NoBody? then
                            (a.(core := Unanswered(noted, h, u.add, c.answered).0),
                             Unanswered(noted, h, u.add, c.answered).1)
                          else Answered(a.(core := noted), h, file, false, u, c);
      Polled(b, outcome, [Sent(file, c.sent, !u.add.NotAdded?)])
  }

  /** One resolve. A torrent already bought is resolved before any guard against adding. */
  function Resolved(p: Budget.Policy, a: Rd, h: Hash, file: File, noAdd: bool, prefetch: bool, u: Replies, c: Times): Polled {
    if Live(a.core.refused, c.top) then Polled(a, Unavailable, [])
    else if Live(IdOf(a, file), c.top) then
      var (b, outcome) := Existing(a, h, file, noAdd, u.held, c.read);
      Polled(b, outcome, if u.held.UnknownTorrent? then [Forgotten(file)] else [])
    else if noAdd then Polled(a, WouldAdd, [])
    else Buying(p, a, h, file, prefetch, u, c)
  }

  // ---- runs ----

  datatype Turn = Turn(hash: Hash, file: File, noAdd: bool, prefetch: bool, replies: Replies, times: Times)

  function Took(p: Budget.Policy, a: Rd, t: Turn): Polled {
    Resolved(p, a, t.hash, t.file, t.noAdd, t.prefetch, t.replies, t.times)
  }

  function Ran(p: Budget.Policy, a: Rd, turns: seq<Turn>, n: nat): (Rd, seq<Event>)
    requires n <= |turns|
  {
    if n == 0 then (a, []) else
      var (before, history) := Ran(p, a, turns, n - 1);
      var r := Took(p, before, turns[n - 1]);
      (r.account, history + r.events)
  }

  function At(turns: seq<Turn>, n: nat, start: Time): Time
    requires n <= |turns|
  {
    if n == 0 then start else turns[n - 1].times.read
  }

  /** The clock never goes back, and a file's key tells its release. */
  ghost predicate Orderly(turns: seq<Turn>, n: nat, start: Time, release: File -> Hash)
    requires n <= |turns|
  {
    n == 0 ||
    (Orderly(turns, n - 1, start, release) && At(turns, n - 1, start) <= turns[n - 1].times.top
     && Ordered(turns[n - 1].times) && turns[n - 1].hash == release(turns[n - 1].file))
  }

  // ---- the budget ----

  lemma {:induction false} ExistingStamps(a: Rd, h: Hash, file: File, noAdd: bool, answer: Chain, now: Time)
    ensures var b := Existing(a, h, file, noAdd, answer, now).0;
            b.core.stamps == a.core.stamps && (noAdd ==> Of(b.core, h).refused == Of(a.core, h).refused)
  {
  }

  /** A resolve that may not add sends nothing, spends nothing, and leaves no refusal that could turn a later viewer
      away from this release. */
  lemma {:induction false} NoAddSpendsNothing(p: Budget.Policy, a: Rd, t: Turn)
    requires t.noAdd
    ensures var r := Took(p, a, t);
            r.account.core.stamps == a.core.stamps
            && Of(r.account.core, t.hash).refused == Of(a.core, t.hash).refused
            && (forall e <- r.events :: e.Forgotten?)
  {
    ExistingStamps(a, t.hash, t.file, true, t.replies.held, t.times.read);
  }

  lemma {:induction false} TurnAccounts(p: Budget.Policy, a: Rd, t: Turn)
    requires Ordered(t.times) && p.reserve >= 0
    ensures var r := Took(p, a, t); Accounts(p, a.core.stamps, r.account.core.stamps, r.events, t.times.sent)
  {
    ExistingStamps(a, t.hash, t.file, t.noAdd, t.replies.held, t.times.read);
    BuyingAccounts(p, a, t);
  }

  lemma {:induction false} AnsweredStamps(a: Rd, h: Hash, file: File, u: Replies, c: Times)
    requires u.add.NotAdded? || u.add.Added?
    ensures Answered(a, h, file, false, u, c).0.core.stamps
            == if u.add.NotAdded? then GiveBack(a.core).stamps else a.core.stamps
  {
    if u.add.Added? {
      var settled := With(a.core, h, Settle(Of(a.core, h)));
      var known := Rd(settled, a.ids[file := Entry(u.add.id, c.answered + RESOLVE_CACHE_TTL)]);
      ExistingStamps(known, h, file, false, u.bought, c.read);
    }
  }

  lemma {:induction false} UnansweredStamps(a: Account, h: Hash, reply: AddReply, now: Time)
    requires reply.NoReply? || reply.NoBody?
    ensures Unanswered(a, h, reply, now).0.stamps == a.stamps
  {
  }

  lemma {:induction false} BuyingAccounts(p: Budget.Policy, a: Rd, t: Turn)
    requires Ordered(t.times) && p.reserve >= 0
    ensures var r := Buying(p, a, t.hash, t.file, t.prefetch, t.replies, t.times);
            Accounts(p, a.core.stamps, r.account.core.stamps, r.events, t.times.sent)
  {
    var c := t.times;
    var noted := With(Charge(a.core, p, c.sent), t.hash, NoteAttempt(Of(a.core, t.hash), c.sent));
    if t.replies.add.NoReply? || t.replies.add.NoBody? {
      UnansweredStamps(noted, t.hash, t.replies.add, c.answered);
    } else {
      AnsweredStamps(a.(core := noted), t.hash, t.file, t.replies, c);
    }
  }

  lemma {:induction false} RanBacked(p: Budget.Policy, a: Rd, turns: seq<Turn>, n: nat, start: Time,
                                     release: File -> Hash)
    requires n <= |turns| && Orderly(turns, n, start, release)
    requires a.core.stamps == [] && p.reserve >= 0 && p.window > 0
    ensures var (b, history) := Ran(p, a, turns, n); Backed(p, b.core.stamps, history, At(turns, n, start))
  {
    if n > 0 {
      var (before, history) := Ran(p, a, turns, n - 1);
      var t := turns[n - 1];
      RanBacked(p, a, turns, n - 1, start, release);
      TurnAccounts(p, before, t);
      var r := Took(p, before, t);
      ChargesBacked(p, before.core.stamps, r.account.core.stamps, history, r.events, At(turns, n - 1, start),
                    t.times.sent, t.times.read);
    } else {
      NothingBacked(p, start);
    }
  }

  /** Budget safety: in every run that starts with nothing charged, whatever Real-Debrid answered and however often a
      charge was given back, no rolling window holds more adds it may be counting than the limit. */
  lemma {:induction false} AddsWithinBudget(p: Budget.Policy, a: Rd, turns: seq<Turn>, start: Time,
                                            release: File -> Hash, t: Time)
    requires Orderly(turns, |turns|, start, release) && a.core.stamps == []
    requires p.reserve >= 0 && p.window > 0 && p.limit >= 0
    ensures var history := Ran(p, a, turns, |turns|).1;
            var adds := Kept(history, |history|);
            Budget.CountWithin(adds, |adds|, t - p.window, t) <= p.limit
  {
    RanBacked(p, a, turns, |turns|, start, release);
    var (b, history) := Ran(p, a, turns, |turns|);
    BackedBounds(p, b.core.stamps, history, At(turns, |turns|, start), t);
  }

  // ---- licensed re-add ----

  /** Some memory keeps this file from being added at or before an instant. */
  predicate Barred(a: Rd, h: Hash, file: File, until: Time) {
    var r := Of(a.core, h);
    Until(r.attempt, until) || Until(r.refused, until) || Until(a.core.refused, until) || Until(IdOf(a, file), until)
  }

  /** The file's last add is in the past, and for a minute after it something keeps it from being added again. */
  ghost predicate Minded(a: Rd, history: seq<Event>, h: Hash, file: File, now: Time) {
    var last := LastSent(history, |history|, file);
    last.Some? ==> last.value <= now && (now > last.value + MINUTE || Barred(a, h, file, last.value + MINUTE))
  }

  /** What a turn does for its own file. */
  ghost predicate Guards(a: Rd, b: Rd, events: seq<Event>, h: Hash, file: File, until: Time, c: Times) {
    if |events| == 0 then Barred(a, h, file, until) ==> Barred(b, h, file, until)
    else |events| == 1 && events[0].key == file
         && (events[0].Sent? ==> events[0].at == c.sent && Barred(b, h, file, c.sent + MINUTE)
                                 && (Barred(a, h, file, until) ==> until < c.sent))
  }

  lemma {:induction false} ExistingGuards(a: Rd, h: Hash, file: File, noAdd: bool, answer: Chain, now: Time, until: Time)
    requires Barred(a, h, file, until) && until <= now + REFUSAL_BACKOFF
    ensures answer.UnknownTorrent? || Barred(Existing(a, h, file, noAdd, answer, now).0, h, file, until)
  {
  }

  lemma {:induction false} AnsweredGuards(a: Rd, h: Hash, file: File, u: Replies, c: Times, until: Time)
    requires (u.add.NotAdded? || u.add.Added?) && until <= c.answered + REFUSAL_BACKOFF && Ordered(c)
    ensures Barred(Answered(a, h, file, false, u, c).0, h, file, until)
  {
    if u.add.Added? {
      var settled := With(a.core, h, Settle(Of(a.core, h)));
      var known := Rd(settled, a.ids[file := Entry(u.add.id, c.answered + RESOLVE_CACHE_TTL)]);
      assert Until(IdOf(known, file), until);
      ExistingGuards(known, h, file, false, u.bought, c.read, until);
    }
  }

  lemma {:induction false} UnansweredGuards(a: Account, h: Hash, reply: AddReply, now: Time)
    requires reply.NoReply? || reply.NoBody?
    ensures Of(Unanswered(a, h, reply, now).0, h).attempt == Of(a, h).attempt
  {
  }

  lemma {:induction false} BuyingGuards(p: Budget.Policy, a: Rd, t: Turn, until: Time)
    requires Ordered(t.times) && until <= t.times.top + MINUTE && !Live(IdOf(a, t.file), t.times.top)
    ensures var r := Buying(p, a, t.hash, t.file, t.prefetch, t.replies, t.times);
            Guards(a, r.account, r.events, t.hash, t.file, until, t.times)
  {
    var h, c := t.hash, t.times;
    var noted := With(Charge(a.core, p, c.sent), h, NoteAttempt(Of(a.core, h), c.sent));
    if t.replies.add.NoReply? || t.replies.add.NoBody? {
      UnansweredGuards(noted, h, t.replies.add, c.answered);
      assert Until(Of(noted, h).attempt, c.sent + MINUTE);
    } else {
      AnsweredGuards(a.(core := noted), h, t.file, t.replies, c, c.sent + MINUTE);
    }
  }

  lemma {:induction false} TurnGuards(p: Budget.Policy, a: Rd, t: Turn, until: Time)
    requires Ordered(t.times) && until <= t.times.top + MINUTE
    ensures var r := Took(p, a, t); Guards(a, r.account, r.events, t.hash, t.file, until, t.times)
  {
    if Live(IdOf(a, t.file), t.times.top) {
      if Barred(a, t.hash, t.file, until) {
        ExistingGuards(a, t.hash, t.file, t.noAdd, t.replies.held, t.times.read, until);
      }
    } else {
      BuyingGuards(p, a, t, until);
    }
  }

  /** A turn for one file leaves the guard of another be, unless it outlasts it. */
  lemma {:induction false} OtherFiles(p: Budget.Policy, a: Rd, t: Turn, h: Hash, file: File, until: Time)
    requires Ordered(t.times) && until <= t.times.top + MINUTE && file != t.file && Barred(a, h, file, until)
    ensures var r := Took(p, a, t);
            (until < t.times.read || Barred(r.account, h, file, until)) && forall e <- r.events :: e.key == t.file
  {
    OtherFilesBuying(p, a, t, h, file, until);
  }

  lemma {:induction false} OtherFilesBuying(p: Budget.Policy, a: Rd, t: Turn, h: Hash, file: File, until: Time)
    requires Ordered(t.times) && until <= t.times.top + MINUTE && file != t.file && Barred(a, h, file, until)
    ensures var r := Buying(p, a, t.hash, t.file, t.prefetch, t.replies, t.times);
            (until < t.times.read || Barred(r.account, h, file, until)) && forall e <- r.events :: e.key == t.file
  {
    var c := t.times;
    var r := Buying(p, a, t.hash, t.file, t.prefetch, t.replies, c);
    var noted := With(Charge(a.core, p, c.sent), t.hash, NoteAttempt(Of(a.core, t.hash), c.sent));
    if |r.events| > 0 && until >= c.sent {
      if t.replies.add.NoReply? || t.replies.add.NoBody? {
        OtherFilesUnanswered(a.(core := noted), t.hash, t.replies.add, c.answered, h, file, until);
      } else {
        OtherFilesAnswered(a.(core := noted), t, h, file, until);
      }
    }
  }

  lemma {:induction false} OtherFilesUnanswered(a: Rd, g: Hash, reply: AddReply, now: Time, h: Hash, file: File,
                                                until: Time)
    requires (reply.NoReply? || reply.NoBody?) && Barred(a, h, file, until) && until <= now + REFUSAL_BACKOFF
    ensures Barred(a.(core := Unanswered(a.core, g, reply, now).0), h, file, until)
  {
  }

  /** What is answered settles only the add's own attempt, which cannot have been what barred the file. */
  lemma {:induction false} OtherFilesAnswered(a: Rd, t: Turn, h: Hash, file: File, until: Time)
    requires Ordered(t.times) && until <= t.times.top + MINUTE && file != t.file
    requires t.replies.add.NotAdded? || t.replies.add.Added?
    requires Barred(a.(core := With(a.core, t.hash, Settle(Of(a.core, t.hash)))), h, file, until)
    ensures Barred(Answered(a, t.hash, t.file, false, t.replies, t.times).0, h, file, until)
  {
  }

  lemma {:induction false} MindedOwn(p: Budget.Policy, a: Rd, t: Turn, history: seq<Event>, from: Time)
    requires Ordered(t.times) && from <= t.times.top && Licensed(history, |history|)
    requires Minded(a, history, t.hash, t.file, from)
    ensures var r := Took(p, a, t); var longer := history + r.events;
            Licensed(longer, |longer|) && Minded(r.account, longer, t.hash, t.file, t.times.read)
  {
    var last := LastSent(history, |history|, t.file);
    var until := if last.Some? then last.value + MINUTE else t.times.top;
    TurnGuards(p, a, t, until);
    var r := Took(p, a, t);
    Appended(history, r.events, t.file);
  }

  lemma {:induction false} MindedOther(p: Budget.Policy, a: Rd, t: Turn, history: seq<Event>, from: Time, h: Hash,
                                       file: File)
    requires Ordered(t.times) && from <= t.times.top && file != t.file && Minded(a, history, h, file, from)
    ensures var r := Took(p, a, t); Minded(r.account, history + r.events, h, file, t.times.read)
  {
    var n, r := |history|, Took(p, a, t);
    var last := LastSent(history, n, file);
    LastSentPrefix(history, r.events, n, file);
    if last.Some? && Barred(a, h, file, last.value + MINUTE) {
      OtherFiles(p, a, t, h, file, last.value + MINUTE);
    }
    OnlyOwnKey(p, a, t);
    LastSentOfOthers(history + r.events, n, |history + r.events|, file);
  }

  lemma {:induction false} OnlyOwnKey(p: Budget.Policy, a: Rd, t: Turn)
    ensures forall e <- Took(p, a, t).events :: e.key == t.file
  {
  }

  lemma {:induction false} RanMinds(p: Budget.Policy, a: Rd, turns: seq<Turn>, n: nat, start: Time,
                                    release: File -> Hash, file: File)
    requires n <= |turns| && Orderly(turns, n, start, release)
    ensures var (b, history) := Ran(p, a, turns, n);
            Licensed(history, |history|) && Minded(b, history, release(file), file, At(turns, n, start))
  {
    if n > 0 {
      var (before, history) := Ran(p, a, turns, n - 1);
      var t, from := turns[n - 1], At(turns, n - 1, start);
      RanMinds(p, a, turns, n - 1, start, release, t.file);
      MindedOwn(p, before, t, history, from);
      if file != t.file {
        RanMinds(p, a, turns, n - 1, start, release, file);
        MindedOther(p, before, t, history, from, release(file), file);
      }
    }
  }

  /** Licensed re-add, file by file: in every run, of two adds for one file the second comes more than a minute after the
      first, unless between them Real-Debrid said it has no such torrent. */
  lemma {:induction false} LicensedReaddPerFile(p: Budget.Policy, a: Rd, turns: seq<Turn>, start: Time,
                                                release: File -> Hash, i: nat, j: nat)
    requires Orderly(turns, |turns|, start, release)
    requires var history := Ran(p, a, turns, |turns|).1;
             i < j < |history| && history[i].Sent? && history[j].Sent? && history[i].key == history[j].key
    ensures var history := Ran(p, a, turns, |turns|).1;
            history[j].at > history[i].at + MINUTE
            || exists k :: i < k < j && history[k].key == history[i].key && !history[k].Sent?
  {
    var history := Ran(p, a, turns, |turns|).1;
    RanMinds(p, a, turns, |turns|, start, release, history[i].key);
    SpacedSends(history, |history|, i, j);
  }

  // ---- when an add goes out ----

  /** Nothing that is remembered of the file, its release or the account stands between this turn and an add. */
  predicate Unhindered(a: Rd, t: Turn) {
    var r, c := Of(a.core, t.hash), t.times;
    Over(a.core.refused, c.top) && Over(IdOf(a, t.file), c.top)
    && !GivenUp(r, c.sent) && Over(r.attempt, c.sent) && Over(r.refused, c.sent) && Over(a.core.refused, c.sent)
  }

  /** Exactly when an add goes out: a turn sends one if and only if nothing remembered stands between, the caller allows
      it, the clock is not spent and the hour has room. Real-Debrid may be counting it unless it answered that it created
      nothing. */
  lemma {:induction false} SendsExactly(p: Budget.Policy, a: Rd, t: Turn)
    ensures var events := Took(p, a, t).events;
            if Unhindered(a, t) && !t.noAdd && !t.replies.clockSpent
               && HasRoom(p, a.core.stamps, t.prefetch, t.times.sent)
            then events == [Sent(t.file, t.times.sent, t.replies.add.NoReply? || t.replies.add.NoBody? || t.replies.add.Added?)]
            else forall e <- events :: !e.Sent?
  {
  }

  /** And over runs, in terms of what was sent. */
  lemma {:induction false} SendsExactlyAfterRun(p: Budget.Policy, a: Rd, turns: seq<Turn>, start: Time,
                                                release: File -> Hash, t: Turn)
    requires Orderly(turns, |turns|, start, release) && a.core.stamps == [] && p.reserve >= 0 && p.window > 0
    requires Ordered(t.times) && At(turns, |turns|, start) <= t.times.top
    requires Unhindered(Ran(p, a, turns, |turns|).0, t) && !t.noAdd
    ensures var (b, history) := Ran(p, a, turns, |turns|);
            (exists e :: e in Took(p, b, t).events && e.Sent?)
            <==> !t.replies.clockSpent && HasRoom(p, Kept(history, |history|), t.prefetch, t.times.sent)
  {
    var (b, history) := Ran(p, a, turns, |turns|);
    RanBacked(p, a, turns, |turns|, start, release);
    BackedLater(p, b.core.stamps, history, At(turns, |turns|, start), t.times.sent);
    SendsExactly(p, b, t);
    var events := Took(p, b, t).events;
    if |events| > 0 {
      assert events[0] in events;
    }
  }

  /** Exactly when a link is served: the torrent remembered for the file gives one, or else the one just added does. */
  lemma {:induction false} LinksExactly(p: Budget.Policy, a: Rd, t: Turn)
    ensures Took(p, a, t).outcome == Link
            <==> Over(a.core.refused, t.times.top)
                 && if !Over(IdOf(a, t.file), t.times.top) then t.replies.held == Served
                    else Unhindered(a, t) && !t.noAdd && !t.replies.clockSpent
                         && HasRoom(p, a.core.stamps, t.prefetch, t.times.sent)
                         && t.replies.add.Added? && t.replies.bought == Served
  {
  }

  /** What a turn that serves nothing and sends nothing says. */
  lemma {:induction false} SaysWithoutAdding(p: Budget.Policy, a: Rd, t: Turn)
    ensures var r, c, said := Of(a.core, t.hash), t.times, Took(p, a, t).outcome;
            if !Over(a.core.refused, c.top) then said == Unavailable
            else if !Over(IdOf(a, t.file), c.top) then true
            else if t.noAdd then said == WouldAdd
            else if GivenUp(r, c.sent) then said == Dead
            else if !Over(r.attempt, c.sent) then said == Coming
            else if !Over(r.refused, c.sent) || !Over(a.core.refused, c.sent) then said == Unavailable
            else t.replies.clockSpent || !HasRoom(p, a.core.stamps, t.prefetch, c.sent) ==> said == Busy
  {
  }

  /** What a torrent that is held lets a turn say, and leaves: only the first "no such torrent" forgets it, and a refusal
      lasts a minute. */
  lemma {:induction false} HeldLeaves(p: Budget.Policy, a: Rd, t: Turn)
    requires Over(a.core.refused, t.times.top) && !Over(IdOf(a, t.file), t.times.top)
    ensures var r := Took(p, a, t);
            r.events == (if t.replies.held == UnknownTorrent then [Forgotten(t.file)] else [])
            && r.account.ids == (if t.replies.held == UnknownTorrent then a.ids - {t.file} else a.ids)
            && (t.replies.held.RefusedUs? ==>
                  TurnsAway(a.core, r.account.core, t.hash, t.replies.held.account, t.noAdd, t.times.read))
            && (!t.replies.held.RefusedUs? ==> r.account.core == a.core)
            && r.outcome == ChainSays(t.replies.held)
  {
  }

  function ChainSays(answer: Chain): Outcome {
    match answer
    case Served => Link
    case RefusedUs(_) => Unavailable
    case NotInPack => WrongPack
    case NoLinkYet => Dead
    case Broken => Failed
    case _ => Gone
  }

  /** An add that is sent. */
  predicate Adding(p: Budget.Policy, a: Rd, t: Turn) {
    Unhindered(a, t) && !t.noAdd && !t.replies.clockSpent && HasRoom(p, a.core.stamps, t.prefetch, t.times.sent)
  }

  /** What one that is not answered says, and leaves: it is out for ninety seconds, and the first silence is remembered for
      half an hour, unless the viewer went away; but a lost one is refused once the ninety seconds are over. */
  lemma {:induction false} SilenceLeaves(p: Budget.Policy, a: Rd, t: Turn)
    requires Ordered(t.times) && Adding(p, a, t) && (t.replies.add.NoReply? || t.replies.add.NoBody?)
    ensures var r, c, was := Took(p, a, t), t.times, Of(a.core, t.hash);
            var out := was.(attempt := Some(Entry(true, c.sent + 90 * SECOND)), miss := None);
            var stamped := if Over(was.unknown, c.answered)
                           then out.(unknown := Some(Entry(c.answered / SECOND, c.answered + 30 * MINUTE))) else out;
            var refused := out.(refused := Some(Entry(true, c.answered + MINUTE)));
            r.account.ids == a.ids && r.account.core.refused == a.core.refused
            && if t.replies.add.NoReply? then
                 r.outcome == Failed
                 && Of(r.account.core, t.hash) == if t.replies.add.cancelled then out
                                                  else if c.answered <= c.sent + 90 * SECOND then stamped else refused
               else if GivenUp(was, c.answered) then r.outcome == Dead && Of(r.account.core, t.hash) == out
               else r.outcome == Coming && Of(r.account.core, t.hash) == if t.replies.add.cancelled then out else stamped
  {
  }

  /** And one that is answered: nothing is out any more, and no silence remembered. With nothing created there is a refusal
      for a minute. */
  lemma {:induction false} RejectionLeaves(p: Budget.Policy, a: Rd, t: Turn)
    requires Ordered(t.times) && Adding(p, a, t) && t.replies.add.NotAdded?
    ensures var r, add := Took(p, a, t), t.replies.add;
            var settled := Of(a.core, t.hash).(attempt := None, unknown := None, miss := None);
            var refused := Some(Entry(true, t.times.answered + MINUTE));
            r.outcome == (if add.refused || add.account then Unavailable else Dead) && r.account.ids == a.ids
            && if add.account then r.account.core.refused == refused && Of(r.account.core, t.hash) == settled
               else r.account.core.refused == a.core.refused
                    && Of(r.account.core, t.hash) == settled.(refused := refused)
  {
  }

  /** A torrent that was created is remembered for this file for six hours, and asked for its link; one that is denied
      again at once is refused for a minute. */
  lemma {:induction false} NewTorrentLeaves(p: Budget.Policy, a: Rd, t: Turn)
    requires Ordered(t.times) && Adding(p, a, t) && t.replies.add.Added?
    ensures var r, bought, said := Took(p, a, t), t.replies.bought, ChainSays(t.replies.bought);
            var settled := Of(a.core, t.hash).(attempt := None, unknown := None, miss := None);
            var refused := Some(Entry(true, t.times.read + MINUTE));
            r.outcome == (if said == Gone then Dead else said)
            && r.account.ids == (if bought == UnknownTorrent then a.ids - {t.file}
                                 else a.ids[t.file := Entry(t.replies.add.id, t.times.answered + 6 * HOUR)])
            && if bought.RefusedUs? && bought.account then
                 r.account.core.refused == refused && Of(r.account.core, t.hash) == settled
               else r.account.core.refused == a.core.refused
                    && Of(r.account.core, t.hash)
                       == if said == Gone || bought.RefusedUs? then settled.(refused := refused) else settled
  {
    NewTorrentHeld(a.(core := With(Charge(a.core, p, t.times.sent), t.hash, NoteAttempt(Of(a.core, t.hash), t.times.sent))),
                   t.hash, t.file, t.replies, t.times);
  }

  lemma {:induction false} NewTorrentHeld(a: Rd, h: Hash, file: File, u: Replies, c: Times)
    requires u.add.Added?
    ensures var (b, outcome) := Answered(a, h, file, false, u, c);
            var settled := Of(a.core, h).(attempt := None, unknown := None);
            var refused := Some(Entry(true, c.read + MINUTE));
            var said := ChainSays(u.bought);
            outcome == (if said == Gone then Dead else said)
            && b.ids == (if u.bought == UnknownTorrent then a.ids - {file}
                         else a.ids[file := Entry(u.add.id, c.answered + 6 * HOUR)])
            && if u.bought.RefusedUs? && u.bought.account then
                 b.core.refused == refused && Of(b.core, h) == settled
               else b.core.refused == a.core.refused
                    && Of(b.core, h) == if said == Gone || u.bought.RefusedUs? then settled.(refused := refused) else settled
  {
    assert a.ids[file := Entry(u.add.id, c.answered + RESOLVE_CACHE_TTL)] - {file} == a.ids - {file};
  }

  // ---- giving up ----

  /** A turn that leaves this release's adds unanswered: if one goes out it is lost or unreadable, not cancelled, and
      takes at most `length`. */
  predicate Silent(t: Turn, h: Hash, length: Time) {
    t.hash == h ==>
      (t.replies.add == NoReply(false) || t.replies.add == NoBody(false)) && t.times.answered - t.times.sent <= length
  }

  /** The add a turn sent of this release, for whichever file. */
  function AddedBy(t: Turn, events: seq<Event>, h: Hash): Option<Time> {
    if t.hash == h && |events| > 0 && events[0].Sent? then Some(events[0].at) else None
  }

  /** The adds of a release, for all its files, sent under its newest unknown-outcome stamp. */
  function UnderStamp(p: Budget.Policy, a: Rd, turns: seq<Turn>, n: nat, h: Hash): seq<Time>
    requires n <= |turns|
  {
    if n == 0 then [] else
      var before := Ran(p, a, turns, n - 1).0;
      var added := AddedBy(turns[n - 1], Took(p, before, turns[n - 1]).events, h);
      if added.None? then UnderStamp(p, a, turns, n - 1, h)
      else if Live(Of(before.core, h).unknown, added.value) then UnderStamp(p, a, turns, n - 1, h) + [added.value]
      else [added.value]
  }

  lemma {:induction false} ExistingMarks(a: Rd, h: Hash, file: File, noAdd: bool, answer: Chain, now: Time)
    ensures var b := Existing(a, h, file, noAdd, answer, now).0;
            Of(b.core, h).attempt == Of(a.core, h).attempt && Of(b.core, h).unknown == Of(a.core, h).unknown
  {
  }

  lemma {:induction false} BuyingMarks(p: Budget.Policy, a: Rd, t: Turn, length: Time)
    requires Ordered(t.times) && Silent(t, t.hash, length) && length <= ATTEMPT_TTL && StampDated(Of(a.core, t.hash))
    ensures var r := Buying(p, a, t.hash, t.file, t.prefetch, t.replies, t.times);
            Marks(Of(a.core, t.hash), Of(r.account.core, t.hash), AddedBy(t, r.events, t.hash), length)
  {
  }

  lemma {:induction false} ExistingOthers(a: Rd, g: Hash, file: File, noAdd: bool, answer: Chain, now: Time, h: Hash)
    requires g != h
    ensures Of(Existing(a, g, file, noAdd, answer, now).0.core, h) == Of(a.core, h)
  {
  }

  lemma {:induction false} UnansweredOthers(a: Account, g: Hash, reply: AddReply, now: Time, h: Hash)
    requires g != h && (reply.NoReply? || reply.NoBody?)
    ensures Of(Unanswered(a, g, reply, now).0, h) == Of(a, h)
  {
  }

  lemma {:induction false} AnsweredOthers(a: Rd, g: Hash, file: File, u: Replies, c: Times, h: Hash)
    requires g != h && (u.add.NotAdded? || u.add.Added?)
    ensures Of(Answered(a, g, file, false, u, c).0.core, h) == Of(a.core, h)
  {
    if u.add.Added? {
      var settled := With(a.core, g, Settle(Of(a.core, g)));
      var known := Rd(settled, a.ids[file := Entry(u.add.id, c.answered + RESOLVE_CACHE_TTL)]);
      ExistingOthers(known, g, file, false, u.bought, c.read, h);
    }
  }

  lemma {:induction false} OthersMarks(p: Budget.Policy, a: Rd, t: Turn, h: Hash)
    requires t.hash != h
    ensures Of(Took(p, a, t).account.core, h) == Of(a.core, h)
  {
    var c := t.times;
    var noted := With(Charge(a.core, p, c.sent), t.hash, NoteAttempt(Of(a.core, t.hash), c.sent));
    assert Of(noted, h) == Of(a.core, h);
    ExistingOthers(a, t.hash, t.file, t.noAdd, t.replies.held, c.read, h);
    if t.replies.add.NoReply? || t.replies.add.NoBody? {
      UnansweredOthers(noted, t.hash, t.replies.add, c.answered, h);
    } else {
      AnsweredOthers(a.(core := noted), t.hash, t.file, t.replies, c, h);
    }
  }

  lemma {:induction false} TurnMarks(p: Budget.Policy, a: Rd, t: Turn, h: Hash, length: Time)
    requires Ordered(t.times) && Silent(t, h, length) && 0 <= length <= ATTEMPT_TTL && StampDated(Of(a.core, h))
    ensures var r := Took(p, a, t); Marks(Of(a.core, h), Of(r.account.core, h), AddedBy(t, r.events, h), length)
  {
    if t.hash != h {
      OthersMarks(p, a, t, h);
    } else {
      ExistingMarks(a, h, t.file, t.noAdd, t.replies.held, t.times.read);
      BuyingMarks(p, a, t, length);
    }
  }

  ghost predicate AllSilent(turns: seq<Turn>, n: nat, h: Hash, length: Time)
    requires n <= |turns|
  {
    n == 0 || (AllSilent(turns, n - 1, h, length) && Silent(turns[n - 1], h, length))
  }

  lemma {:induction false} RanStamped(p: Budget.Policy, a: Rd, turns: seq<Turn>, n: nat, start: Time,
                                      release: File -> Hash, h: Hash, length: Time)
    requires n <= |turns| && Orderly(turns, n, start, release) && AllSilent(turns, n, h, length)
    requires Of(a.core, h).unknown.None? && 0 <= length <= ATTEMPT_TTL
    ensures Stamped(Of(Ran(p, a, turns, n).0.core, h), UnderStamp(p, a, turns, n, h), length)
  {
    if n > 0 {
      RanStamped(p, a, turns, n - 1, start, release, h, length);
      var before, sends := Ran(p, a, turns, n - 1).0, UnderStamp(p, a, turns, n - 1, h);
      StampedIsDated(Of(before.core, h), sends, length);
      TurnMarks(p, before, turns[n - 1], h, length);
      var r := Took(p, before, turns[n - 1]);
      StampedStep(Of(before.core, h), Of(r.account.core, h), sends, AddedBy(turns[n - 1], r.events, h), length);
    }
  }

  /** The give-up, where nothing else can end the wait: in every run in which Real-Debrid leaves the adds of a release
      unanswered, however often and for however many of its files it is polled, those sent under one unknown-outcome
      stamp are as few as at TorBox. */
  lemma {:induction false} GivesUp(p: Budget.Policy, a: Rd, turns: seq<Turn>, start: Time, release: File -> Hash,
                                   h: Hash, length: Time)
    requires Orderly(turns, |turns|, start, release) && AllSilent(turns, |turns|, h, length)
    requires Of(a.core, h).unknown.None? && 0 <= length <= ATTEMPT_TTL
    ensures var n := |UnderStamp(p, a, turns, |turns|, h)|;
            (n > 1 ==> (n - 1) * ATTEMPT_TTL < ADD_GIVE_UP + length)
            && (length <= 30 * SECOND ==> n <= 7) && (length <= 45 * SECOND ==> n <= 8)
  {
    RanStamped(p, a, turns, |turns|, start, release, h, length);
    StampedBound(Of(Ran(p, a, turns, |turns|).0.core, h), UnderStamp(p, a, turns, |turns|, h), length);
  }

  /** And the next add of the release either comes within the give-up of the first one's silence, or waits until the
      stamp has lived its thirty minutes out. */
  lemma {:induction false} SilentAfterGivingUp(p: Budget.Policy, a: Rd, turns: seq<Turn>, start: Time,
                                               release: File -> Hash, h: Hash, length: Time, next: Turn)
    requires Orderly(turns, |turns|, start, release) && AllSilent(turns, |turns|, h, length)
    requires Of(a.core, h).unknown.None? && 0 <= length <= ATTEMPT_TTL
    requires Ordered(next.times) && Silent(next, h, length)
    ensures var sends := UnderStamp(p, a, turns, |turns|, h);
            var added := AddedBy(next, Took(p, Ran(p, a, turns, |turns|).0, next).events, h);
            |sends| > 0 && added.Some? ==>
              added.value <= sends[0] + length + ADD_GIVE_UP || added.value > sends[0] + UNKNOWN_OUTCOME_TTL
  {
    var b, sends := Ran(p, a, turns, |turns|).0, UnderStamp(p, a, turns, |turns|, h);
    RanStamped(p, a, turns, |turns|, start, release, h, length);
    StampedIsDated(Of(b.core, h), sends, length);
    TurnMarks(p, b, next, h, length);
    var r := Took(p, b, next);
    if |sends| > 0 && AddedBy(next, r.events, h).Some? {
      StampGap(Of(b.core, h), Of(r.account.core, h), sends, AddedBy(next, r.events, h), length);
    }
  }

  // ---- the link of a file ----

  /** A torrent's file, by its id, and whether it is selected. */
  datatype Listed = Listed(id: int, selected: bool)

  /** How many of the first n files are selected. */
  function Selected(files: seq<Listed>, n: nat): nat
    requires n <= |files|
  {
    if n == 0 then 0 else Selected(files, n - 1) + if files[n - 1].selected then 1 else 0
  }

  /** rdLinkFor: the links stand for the selected files in order. Where no file says it is selected, one link can only be
      the one asked for. */
  method LinkFor(files: seq<Listed>, links: seq<string>, id: int) returns (link: Option<string>)
    ensures forall k :: 0 <= k < |files| && files[k].selected && files[k].id == id
                        && (forall j :: 0 <= j < k && files[j].selected ==> files[j].id != id) ==>
              link == if Selected(files, k) < |links| then Some(links[Selected(files, k)]) else None
    ensures (forall k :: 0 <= k < |files| && files[k].selected ==> files[k].id != id) ==>
              link == if Selected(files, |files|) == 0 && |links| == 1 then Some(links[0]) else None
  {
    var pos := 0;
    for i := 0 to |files|
      invariant pos == Selected(files, i)
      invariant forall j :: 0 <= j < i && files[j].selected ==> files[j].id != id
    {
      if files[i].selected {
        if files[i].id == id {
          return if pos < |links| then Some(links[pos]) else None;
        }
        pos := pos + 1;
      }
    }
    link := if pos == 0 && |links| == 1 then Some(links[0]) else None;
  }

  /** The links Real-Debrid sends: one for each selected file of the first n, in order. */
  function LinksOf(files: seq<Listed>, n: nat, linkOf: int -> string): seq<string>
    requires n <= |files|
  {
    if n == 0 then []
    else if files[n - 1].selected then LinksOf(files, n - 1, linkOf) + [linkOf(files[n - 1].id)]
    else LinksOf(files, n - 1, linkOf)
  }

  lemma {:induction false} LinkAtPlace(files: seq<Listed>, n: nat, k: nat, linkOf: int -> string)
    requires k < n <= |files| && files[k].selected
    ensures |LinksOf(files, n, linkOf)| == Selected(files, n) > Selected(files, k)
            && LinksOf(files, n, linkOf)[Selected(files, k)] == linkOf(files[k].id)
  {
    LinksAsMany(files, n - 1, linkOf);
    if k < n - 1 {
      LinkAtPlace(files, n - 1, k, linkOf);
    }
  }

  lemma {:induction false} LinksAsMany(files: seq<Listed>, n: nat, linkOf: int -> string)
    requires n <= |files|
    ensures |LinksOf(files, n, linkOf)| == Selected(files, n)
  {
    if n > 0 {
      LinksAsMany(files, n - 1, linkOf);
    }
  }

  /** No file is ever served another's link: when Real-Debrid sends one link for each selected file, in order, the link
      taken for a selected file is its own. */
  method OwnLink(files: seq<Listed>, links: seq<string>, linkOf: int -> string, k: nat) returns (link: Option<string>)
    requires links == LinksOf(files, |files|, linkOf) && k < |files| && files[k].selected
    ensures link == Some(linkOf(files[k].id))
  {
    link := LinkFor(files, links, files[k].id);
    ghost var first := FirstOf(files, files[k].id, 0);
    LinkAtPlace(files, |files|, first, linkOf);
  }

  ghost function FirstOf(files: seq<Listed>, id: int, from: nat): (k: nat)
    requires exists j :: from <= j < |files| && files[j].selected && files[j].id == id
    ensures from <= k < |files| && files[k].selected && files[k].id == id
    ensures forall j :: from <= j < k && files[j].selected ==> files[j].id != id
    decreases |files| - from
  {
    if files[from].selected && files[from].id == id then from else FirstOf(files, id, from + 1)
  }

  // ---- the store as it runs ----

  class Store {
    var memory: map<Hash, Release>
    var accountRefused: Slot<bool>
    var ids: map<File, Entry<int>>
    const budget: Budget.Budget
    const name: string

    constructor (budget: Budget.Budget, name: string)
      requires budget.Valid()
      ensures Valid() && this.budget == budget && this.name == name
      ensures Now() == Rd(Account(map[], None, Budget.Stamps(budget.spent, name)), map[])
    {
      this.budget, this.name := budget, name;
      memory, accountRefused, ids := map[], None, map[];
    }

    ghost predicate Valid()
      reads this, budget
    {
      budget.Valid()
    }

    function Now(): Rd
      reads this, budget
    {
      Rd(Account(memory, accountRefused, Budget.Stamps(budget.spent, name)), ids)
    }

    function Policy(): Budget.Policy
      reads budget
    {
      Budget.Policy(budget.window, budget.limit, budget.reserve)
    }

    function Known(h: Hash): Release
      reads this
    {
      if h in memory then memory[h] else BLANK
    }

    method Refuse(h: Hash, account: bool, now: Time)
      requires Valid()
      modifies this`memory, this`accountRefused
      ensures Valid() && Now() == old(Now()).(core := RecordRefusal(old(Now()).core, h, account, now))
    {
      if account {
        accountRefused := Put(true, now, REFUSAL_BACKOFF);
        return;
      }
      memory := memory[h := Known(h).(refused := Put(true, now, REFUSAL_BACKOFF))];
    }

    method ResolveExisting(h: Hash, file: File, noAdd: bool, answer: Chain, now: Time) returns (outcome: Outcome)
      requires Valid()
      modifies this
      ensures Valid() && (Now(), outcome) == Existing(old(Now()), h, file, noAdd, answer, now)
    {
      match answer
      case Served => outcome := Link;
      case UnknownTorrent =>
        ids := ids - {file};
        outcome := Gone;
      case UnknownLater => outcome := Gone;
      case RefusedUs(account) =>
        if !noAdd || account {
          Refuse(h, account, now);
        }
        outcome := Unavailable;
      case NotInPack => outcome := WrongPack;
      case NoLinkYet => outcome := Dead;
      case Broken => outcome := Failed;
    }

    method Silence(h: Hash, reply: AddReply, now: Time) returns (outcome: Outcome)
      requires Valid() && (reply.NoReply? || reply.NoBody?)
      modifies this
      ensures Valid()
      ensures Now() == old(Now()).(core := Unanswered(old(Now()).core, h, reply, now).0)
      ensures outcome == Unanswered(old(Now()).core, h, reply, now).1
    {
      var r := Known(h);
      if reply.NoReply? {
        if Live(r.attempt, now) {
          if !reply.cancelled {
            memory := memory[h := NoteUnknown(r, now)];
          }
        } else if !reply.cancelled {
          Refuse(h, false, now);
        }
        return Failed;
      }
      if TooLong(r, now) {
        return Dead;
      }
      if !reply.cancelled {
        memory := memory[h := NoteUnknown(r, now)];
      }
      outcome := Coming;
    }

    /** From the answered addMagnet on. */
    method Settled(h: Hash, file: File, u: Replies, c: Times) returns (outcome: Outcome)
      requires Valid() && (u.add.NotAdded? || u.add.Added?)
      modifies this, budget`spent
      ensures Valid() && (Now(), outcome) == Answered(old(Now()), h, file, false, u, c)
    {
      memory := memory[h := Settle(Known(h))];
      match u.add
      case NotAdded(refused, account) =>
        budget.Refund(name);
        Refuse(h, account, c.answered);
        outcome := if refused || account then Unavailable else Dead;
      case Added(id) =>
        ids := ids[file := Entry(id, c.answered + RESOLVE_CACHE_TTL)];
        outcome := ResolveExisting(h, file, false, u.bought, c.read);
        if outcome == Gone {
          Refuse(h, false, c.read);
          outcome := Dead;
        }
    }

    method Spend(prefetch: bool, now: Time) returns (granted: bool)
      requires Valid() && budget.latest <= now
      modifies budget`spent, budget`latest
      ensures Valid() && budget.latest == now
      ensures granted <==> MayCharge(old(Now()).core, old(Policy()), prefetch, now)
      ensures Now() == old(Now()).(core := (if granted then Charge else Drain)(old(Now()).core, old(Policy()), now))
    {
      granted := budget.Take(name, prefetch, now);
    }

    method Buy(h: Hash, file: File, prefetch: bool, u: Replies, c: Times)
      returns (outcome: Outcome, events: seq<Event>)
      requires Valid() && budget.latest <= c.sent
      modifies this, budget`spent, budget`latest
      ensures Valid()
      ensures Polled(Now(), outcome, events) == Buying(old(Policy()), old(Now()), h, file, prefetch, u, c)
    {
      var r := Known(h);
      events := [];
      if TooLong(r, c.sent) {
        return Dead, [];
      }
      if Live(r.attempt, c.sent) {
        return Coming, [];
      }
      if Live(accountRefused, c.sent) || Live(r.refused, c.sent) {
        return Unavailable, [];
      }
      if u.clockSpent {
        return Busy, [];
      }
      var granted := Spend(prefetch, c.sent);
      if !granted {
        return Busy, [];
      }
      memory := memory[h := NoteAttempt(r, c.sent)];
      if u.add.NoReply? || u.add.NoBody? {
        outcome := Silence(h, u.add, c.answered);
      } else {
        outcome := Settled(h, file, u, c);
      }
      events := [Sent(file, c.sent, !u.add.NotAdded?)];
    }

    /** One resolve. */
    method Resolve(h: Hash, file: File, noAdd: bool, prefetch: bool, u: Replies, c: Times)
      returns (outcome: Outcome, events: seq<Event>)
      requires Valid() && budget.latest <= c.sent
      modifies this, budget`spent, budget`latest
      ensures Valid()
      ensures Polled(Now(), outcome, events) == Resolved(old(Policy()), old(Now()), h, file, noAdd, prefetch, u, c)
    {
      events := [];
      if Live(accountRefused, c.top) {
        return Unavailable, [];
      }
      if file in ids && Live(Some(ids[file]), c.top) {
        outcome := ResolveExisting(h, file, noAdd, u.held, c.read);
        events := if u.held.UnknownTorrent? then [Forgotten(file)] else [];
        return;
      }
      if noAdd {
        return WouldAdd, [];
      }
      outcome, events := Buy(h, file, prefetch, u, c);
    }
  }
}
