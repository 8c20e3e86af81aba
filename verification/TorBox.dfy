// The TorBox store as it runs: one object whose memory the resolves, status reads and cancels of an account update in
// place (internal/scout/stores.go), each proved to do exactly what the protocol says.
module TorBox {
  import opened Common
  import Budget = AddBudget
  import opened Protocol = AddProtocol

  class Store {
    var memory: map<Hash, Release>
    var accountRefused: Slot<bool>
    const budget: Budget.Budget
    const name: string

    constructor (budget: Budget.Budget, name: string)
      requires budget.Valid()
      ensures Valid() && this.budget == budget && this.name == name
      ensures Account() == Protocol.Account(map[], None, Budget.Stamps(budget.spent, name))
    {
      this.budget, this.name := budget, name;
      memory, accountRefused := map[], None;
    }

    ghost predicate Valid()
      reads this, budget
    {
      budget.Valid()
    }

    /** Everything this account remembers, as one value. */
    function Account(): Protocol.Account
      reads this, budget
    {
      Protocol.Account(memory, accountRefused, Budget.Stamps(budget.spent, name))
    }

    function Policy(): Budget.Policy
      reads budget
    {
      Budget.Policy(budget.window, budget.limit, budget.reserve)
    }

    /** What is remembered of one release. */
    function Known(h: Hash): Release
      reads this
    {
      if h in memory then memory[h] else BLANK
    }

    method RecordRefusal(h: Hash, account: bool, now: Time)
      requires Valid()
      modifies this
      ensures Valid() && Account() == Protocol.RecordRefusal(old(Account()), h, account, now)
    {
      if account {
        accountRefused := Put(true, now, REFUSAL_BACKOFF);
        return;
      }
      memory := memory[h := Known(h).(refused := Put(true, now, REFUSAL_BACKOFF))];
    }

    /** Asks the listing only when neither the id nor a recent miss is remembered. */
    method TorrentId(h: Hash, answer: LookupAnswer, now: Time) returns (id: Option<int>, sure: bool)
      requires Valid()
      modifies this
      ensures Valid() && (Account(), id, sure) == LookUp(old(Account()), h, answer, now)
    {
      var r := Known(h);
      if Live(r.id, now) {
        return Some(r.id.value.value), true;
      }
      if Live(r.miss, now) {
        return None, true;
      }
      match answer
      case Found(found) =>
        memory := memory[h := r.(id := Put(found, now, RESOLVE_CACHE_TTL), attempt := None, unknown := None)];
        id, sure := Some(found), true;
      case Missing =>
        memory := memory[h := r.(miss := Put(true, now, TORRENT_MISS_TTL))];
        id, sure := None, true;
      case Unreadable =>
        id, sure := None, false;
    }

    /** Turns a torrent the account has into a link. */
    method ResolveHeldTorrent(h: Hash, t: Target, id: int, list: ListAnswer, picks: bool, link: LinkAnswer,
                              listed: Time, linked: Time) returns (outcome: Outcome)
      requires Valid()
      modifies this
      ensures Valid() && (Account(), outcome) == Hold(old(Account()), h, t, id, list, picks, link, listed, linked)
    {
      var files := false;
      if t.needFiles {
        if list.ListGone? {
          return Gone;
        }
        if list.ListRefused? && list.account {
          memory := memory[h := Known(h).(id := Put(id, listed, RESOLVE_CACHE_TTL))];
          RecordRefusal(h, true, listed);
          return Unavailable;
        }
        files := list.Listed? && list.nonempty;
      }
      if !t.needFiles || files {
        memory := memory[h := Known(h).(warm := Put(Warm(id, files), listed, RESOLVE_CACHE_TTL))];
      }
      memory := memory[h := Known(h).(id := Put(id, listed, RESOLVE_CACHE_TTL))];
      if t.needFiles && !files {
        return Unavailable;
      }
      if !picks {
        return WrongPack;
      }
      match link
      case Linked => outcome := Link;
      case LinkGone =>
        memory := memory[h := ForgetTorrent(Known(h))];
        outcome := Gone;
      case LinkRefused(account) =>
        if !t.noAdd || account {
          RecordRefusal(h, account, linked);
        }
        outcome := Unavailable;
      case NoLink => outcome := Dead;
    }

    /** The gates and the warm path: Some when they settle the resolve. */
    method TryWarm(h: Hash, t: Target, u: Answers, c: Clock) returns (settled: Option<Outcome>)
      requires Valid()
      modifies this
      ensures Valid() && (Account(), settled) == Top(old(Account()), h, t, u, c)
    {
      var r := Known(h);
      if Live(accountRefused, c.top) {
        return Some(Unavailable);
      }
      if !t.noAdd && !Believable(r, c.top) {
        if Live(r.refused, c.top) {
          return Some(Unavailable);
        }
      }
      if Live(r.warm, c.top) && (!t.needFiles || r.warm.value.value.listed) {
        if !u.warmPicks {
          return Some(WrongPack);
        }
        if u.warmLink.Linked? {
          return Some(Link);
        }
        if u.warmLink.LinkRefused? {
          if !t.noAdd || u.warmLink.account {
            RecordRefusal(h, u.warmLink.account, c.warmed);
          }
          return Some(Unavailable);
        }
      }
      settled := None;
    }

    /** What createtorrent's answer leads to, once it was answered: the attempt is settled before anything else. */
    method Settled(h: Hash, t: Target, u: Answers, c: Clock) returns (outcome: Outcome)
      requires Valid() && !u.add.NotBuilt? && !u.add.Lost? && !u.add.Unread?
      modifies this, budget`spent
      ensures Valid() && (Account(), outcome) == AfterAnswer(old(Account()), h, t, u, c)
    {
      memory := memory[h := Settle(Known(h))];
      match u.add
      case Rejected(refused, account) =>
        budget.Refund(name);
        RecordRefusal(h, account, c.answered);
        outcome := if refused || account then Unavailable else Dead;
      case NoId(nothing) =>
        if nothing {
          budget.Refund(name);
        }
        RecordRefusal(h, false, c.answered);
        outcome := Dead;
      case AlreadyQueued(queued) =>
        budget.Refund(name);
        outcome := Parked(h, t, queued, u, c);
      case Parked(queued) =>
        outcome := Parked(h, t, queued, u, c);
      case Created(id) =>
        memory := memory[h := Known(h).(ours := Put(true, c.answered, RESOLVE_CACHE_TTL))];
        outcome := JustAdded(h, t, id, u, c);
    }

    method Parked(h: Hash, t: Target, queued: int, u: Answers, c: Clock) returns (outcome: Outcome)
      requires Valid()
      modifies this
      ensures Valid() && (Account(), outcome) == Park(old(Account()), h, t, queued, u, c)
    {
      memory := memory[h := Known(h).(ours := Put(true, c.answered, RESOLVE_CACHE_TTL))];
      memory := memory[h := Known(h).(queued := Put(queued, c.answered, RESOLVE_CACHE_TTL))];
      assert Account() == With(old(Account()), h, Known(h));
      if queued != 0 {
        return Waiting;
      }
      outcome := JustAdded(h, t, 0, u, c);
    }

    method JustAdded(h: Hash, t: Target, id: int, u: Answers, c: Clock) returns (outcome: Outcome)
      requires Valid()
      modifies this
      ensures Valid() && (Account(), outcome) == HoldNew(old(Account()), h, t, id, u, c)
    {
      outcome := ResolveHeldTorrent(h, t, id, u.lastList, u.lastPicks, u.lastLink, c.relisted, c.relinked);
      if outcome == Gone {
        RecordRefusal(h, false, c.relinked);
        outcome := Dead;
      }
    }

    /** The add was sent and never answered. */
    method Silence(h: Hash, answer: AddAnswer, now: Time) returns (outcome: Outcome)
      requires Valid() && (answer.Lost? || answer.Unread?)
      modifies this
      ensures Valid() && (Account(), outcome) == AfterSilence(old(Account()), h, answer, now)
    {
      var r := Known(h);
      outcome := Failed;
      if answer.Unread? {
        if !TooLong(r, now) {
          if !answer.cancelled {
            memory := memory[h := NoteUnknown(r, now)];
          }
          return Coming;
        }
        outcome := Dead;
      }
      if Live(r.attempt, now) {
        if !answer.cancelled && !Live(r.unknown, now) {
          memory := memory[h := NoteUnknown(r, now)];
        }
        assert memory[h := Known(h)] == memory;
      } else if answer.Unread? || !answer.cancelled {
        RecordRefusal(h, false, now);
      }
    }

    /** spendAdd: charges the account's hour, or refuses. */
    method Spend(prefetch: bool, now: Time) returns (granted: bool)
      requires Valid() && budget.latest <= now
      modifies budget`spent, budget`latest
      ensures Valid() && budget.latest == now
      ensures granted <==> MayCharge(old(Account()), old(Policy()), prefetch, now)
      ensures Account() == (if granted then Charge else Drain)(old(Account()), old(Policy()), now)
    {
      granted := budget.Take(name, prefetch, now);
    }

    method Send(h: Hash, t: Target, u: Answers, c: Clock) returns (outcome: Outcome)
      requires Valid() && !u.add.NotBuilt?
      modifies this, budget`spent
      ensures Valid()
      ensures (Account(), outcome)
              == AfterSending(With(old(Account()), h, NoteAttempt(old(Known(h)), c.sent)), h, t, u, c)
    {
      memory := memory[h := NoteAttempt(Known(h), c.sent)];
      if u.add.Lost? || u.add.Unread? {
        outcome := Silence(h, u.add, c.answered);
      } else {
        outcome := Settled(h, t, u, c);
      }
    }

    /** addMagnet and what Resolve does with its answer. */
    method AddMagnet(h: Hash, t: Target, u: Answers, c: Clock) returns (outcome: Outcome, events: seq<Event>)
      requires Valid() && budget.latest <= c.sent
      modifies this, budget`spent, budget`latest
      ensures Valid() && budget.latest <= c.sent
      ensures Result(Account(), outcome, events) == Buy(old(Policy()), old(Account()), h, t, u, c)
    {
      var r := Known(h);
      events := [];
      if TooLong(r, c.sent) {
        return Dead, [];
      }
      if Live(r.attempt, c.sent) {
        return Coming, [];
      }
      if Live(accountRefused, c.sent) || Live(r.refused, c.sent) {
        return Unavailable, [];
      }
      if u.clockSpent {
        return Busy, [];
      }
      var granted := Spend(t.prefetch, c.sent);
      if !granted {
        return Busy, [];
      }
      if u.add.NotBuilt? {
        budget.Refund(name);
        RecordRefusal(h, false, c.answered);
        return Dead, [];
      }
      outcome := Send(h, t, u, c);
      events := [Sent(h, c.sent, !CreatedNothing(u.add))];
    }

    /** A torrent the account does not remember holding: a parked add is looked for, else one is bought. */
    method Seek(h: Hash, t: Target, u: Answers, c: Clock) returns (outcome: Outcome, events: seq<Event>)
      requires Valid() && budget.latest <= c.sent
      modifies this, budget`spent, budget`latest
      ensures Valid() && budget.latest <= c.sent
      ensures Result(Account(), outcome, events) == Unheld(old(Policy()), old(Account()), h, t, u, c)
    {
      if Live(Known(h).queued, c.linked) {
        var id, _ := TorrentId(h, u.lookup, c.looked);
        if id.None? {
          return if t.noAdd then WouldAdd else Waiting, [];
        }
        memory := memory[h := Known(h).(queued := None)];
        outcome := ResolveHeldTorrent(h, t, id.value, u.lastList, u.lastPicks, u.lastLink, c.relisted, c.relinked);
        events := if outcome == Gone && Known(h).id.None? then [Forgotten(h)] else [];
        return;
      }
      if t.noAdd {
        return WouldAdd, [];
      }
      outcome, events := AddMagnet(h, t, u, c);
    }

    /** One resolve. */
    method Resolve(h: Hash, t: Target, u: Answers, c: Clock) returns (outcome: Outcome, events: seq<Event>)
      requires Valid() && budget.latest <= c.sent
      modifies this, budget`spent, budget`latest
      ensures Valid() && budget.latest <= c.sent
      ensures Result(Account(), outcome, events) == Protocol.Resolve(old(Policy()), old(Account()), h, t, u, c)
    {
      var settled := TryWarm(h, t, u, c);
      if settled.Some? {
        return settled.value, [];
      }
      if !Live(Known(h).id, c.warmed) {
        outcome, events := Seek(h, t, u, c);
        return;
      }
      var id := Known(h).id.value.value;
      outcome := ResolveHeldTorrent(h, t, id, u.heldList, u.heldPicks, u.heldLink, c.listed, c.linked);
      if outcome != Gone {
        return outcome, [];
      }
      memory := memory[h := ForgetTorrent(Known(h))];
      assert (Account(), None, true) == Remembering(old(Account()), h, t, u, c);
      outcome, events := Seek(h, t, u, c);
      events := [Forgotten(h)] + events;
    }

    /** One uncached status read. */
    method Status(h: Hash, lookup: LookupAnswer, inQueue: LookupAnswer, now: Time)
      requires Valid()
      modifies this
      ensures Valid() && Account() == Protocol.Status(old(Account()), h, lookup, inQueue, now)
    {
      if Live(Known(h).queued, now) {
        return;
      }
      var id, sure := TorrentId(h, lookup, now);
      if id.Some? || !sure || Live(Known(h).queueMiss, now) {
        return;
      }
      match inQueue
      case Found(queued) => memory := memory[h := Known(h).(queued := Put(queued, now, RESOLVE_CACHE_TTL))];
      case Missing => memory := memory[h := Known(h).(queueMiss := Put(true, now, TORRENT_MISS_TTL))];
      case Unreadable =>
    }

    /** One cancel, or reannounce, of a release. */
    method Cancel(h: Hash, reannounce: bool, lookup: LookupAnswer, entry: EntryAnswer, deleted: bool, now: Time)
      returns (events: seq<Event>)
      requires Valid()
      modifies this
      ensures Valid()
      ensures (Account(), events) == Protocol.Cancel(old(Account()), h, reannounce, lookup, entry, deleted, now)
    {
      var r := Known(h);
      events := [];
      if Live(r.queued, now) {
        if Live(r.ours, now) && !reannounce && deleted {
          memory := memory[h := r.(queued := None, ours := None)];
          events := [Cancelled(h)];
        }
        return;
      }
      var id, _ := TorrentId(h, lookup, now);
      if id.None? || entry.NoAnswer? || entry.Finished? {
        return;
      }
      if entry.NoEntry? {
        memory := memory[h := ForgetTorrent(Known(h))];
        return [Forgotten(h)];
      }
      if (Live(Known(h).ours, now) || entry.stalled) && !reannounce && deleted {
        memory := memory[h := ForgetTorrent(Known(h))];
        events := [Cancelled(h)];
      }
    }
  }
}
