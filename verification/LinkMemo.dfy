// The memory of playback links already minted (internal/scout/linkmemo.go).
module LinkMemo {
  import opened Common
  import opened Recency

  const LINK_TTL: Time := 10 * MINUTE
  const MAX_LINKS: nat := 256

  datatype Link = Link(link: string, checked: bool, expires: Time)

  /** The keys, most recently used first, and their links. */
  datatype Memo = Memo(order: seq<string>, items: map<string, Link>)

  ghost predicate Matches(m: Memo) {
    Distinct(m.order) && forall k :: k in m.order <==> k in m.items
  }

  function Dropped(m: Memo, key: string): Memo {
    if key in m.items then Memo(Without(m.order, |m.order|, key), m.items - {key}) else m
  }

  /** A link is served only before its expiry. */
  function Got(m: Memo, key: string, now: Time): (Memo, Option<Link>) {
    if key !in m.items then (m, None)
    else if now >= m.items[key].expires then (Dropped(m, key), None)
    else (m.(order := Touched(m.order, key)), Some(m.items[key]))
  }

  function Stored(m: Memo, key: string, link: Link): Memo {
    Memo(Touched(m.order, key), m.items[key := link])
  }

  /** The least recently used of a memo that holds one too many. */
  function Trimmed(m: Memo): Memo {
    if |m.order| <= MAX_LINKS then m
    else Memo(m.order[..MAX_LINKS], map k | k in m.items && k in m.order[..MAX_LINKS] :: m.items[k])
  }

  function Put(m: Memo, key: string, link: string, checked: bool, now: Time): Memo {
    Trimmed(Stored(m, key, Link(link, checked, now + LINK_TTL)))
  }

  function Marked(m: Memo, key: string, link: string): Memo {
    if key in m.items && m.items[key].link == link
    then m.(items := m.items[key := m.items[key].(checked := true)])
    else m
  }

  lemma {:induction false} DroppedMatches(m: Memo, key: string)
    requires Matches(m)
    ensures Matches(Dropped(m, key)) && |Dropped(m, key).order| == |m.order| - if key in m.items then 1 else 0
  {
    WithoutHolds(m.order, |m.order|, key);
    assert m.order[..|m.order|] == m.order;
    TouchedHolds(m.order, key);
  }

  lemma {:induction false} TrimmedMatches(m: Memo)
    requires Matches(m)
    ensures Matches(Trimmed(m)) && |Trimmed(m).order| <= MAX_LINKS
  {
    if |m.order| > MAX_LINKS {
      DistinctPrefix(m.order, MAX_LINKS);
    }
  }

  /** One too many: the last of the order goes. */
  lemma {:induction false} TrimmedByOne(m: Memo)
    requires Matches(m) && |m.order| == MAX_LINKS + 1
    ensures m.order[MAX_LINKS] in m.items
            && Trimmed(m) == Memo(m.order[..MAX_LINKS], m.items - {m.order[MAX_LINKS]})
  {
    NotBefore(m.order, MAX_LINKS);
    assert m.order == m.order[..MAX_LINKS] + [m.order[MAX_LINKS]];
    assert m.order[MAX_LINKS] in m.order;
  }

  lemma {:induction false} StoredMatches(m: Memo, key: string, link: Link)
    requires Matches(m)
    ensures var s := Stored(m, key, link);
            Matches(s) && |s.order| == |m.order| + if key in m.items then 0 else 1
  {
    TouchedHolds(m.order, key);
  }

  class LinkMemo {
    var order: seq<string>
    var items: map<string, Link>

    constructor ()
      ensures Valid() && Held() == Memo([], map[])
    {
      order, items := [], map[];
    }

    function Held(): Memo
      reads this
    {
      Memo(order, items)
    }

    ghost predicate Valid()
      reads this
    {
      Matches(Held()) && |order| <= MAX_LINKS
    }

    method Get(key: string, now: Time) returns (found: Option<Link>)
      requires Valid()
      modifies this
      ensures Valid() && (Held(), found) == Got(old(Held()), key, now)
    {
      if key !in items {
        return None;
      }
      if now >= items[key].expires {
        Forget(key);
        return None;
      }
      TouchedHolds(order, key);
      var rest := Remove(order, key);
      order := [key] + rest;
      found := Some(items[key]);
    }

    method Store(key: string, link: string, checked: bool, now: Time)
      requires Valid()
      modifies this
      ensures Valid() && Held() == Put(old(Held()), key, link, checked, now)
    {
      ghost var entry := Link(link, checked, now + LINK_TTL);
      StoredMatches(Held(), key, entry);
      ghost var stored := Stored(Held(), key, entry);
      TrimmedMatches(stored);
      var rest := Remove(order, key);
      order, items := [key] + rest, items[key := Link(link, checked, now + LINK_TTL)];
      assert Held() == stored;
      if |order| > MAX_LINKS {
        TrimmedByOne(stored);
        items := items - {order[|order| - 1]};
        order := order[..|order| - 1];
      }
    }

    method MarkChecked(key: string, link: string)
      requires Valid()
      modifies this
      ensures Valid() && Held() == Marked(old(Held()), key, link)
    {
      if key in items && items[key].link == link {
        items := items[key := items[key].(checked := true)];
      }
    }

    method Forget(key: string)
      requires Valid()
      modifies this
      ensures Valid() && Held() == Dropped(old(Held()), key)
    {
      DroppedMatches(Held(), key);
      if key in items {
        order := Remove(order, key);
        items := items - {key};
      }
    }
  }

  // ---- runs ----

  datatype Op =
    | Ask(key: string, now: Time)
    | Mint(key: string, link: string, checked: bool, now: Time)
    | Check(key: string, link: string)
    | Drop(key: string)

  function Step(m: Memo, op: Op): Memo {
    match op
    case Ask(key, now) => Got(m, key, now).0
    case Mint(key, link, checked, now) => Put(m, key, link, checked, now)
    case Check(key, link) => Marked(m, key, link)
    case Drop(key) => Dropped(m, key)
  }

  function Run(ops: seq<Op>, n: nat): Memo
    requires n <= |ops|
  {
    if n == 0 then Memo([], map[]) else Step(Run(ops, n - 1), ops[n - 1])
  }

  /** The last link minted under a key in the first n operations, when, and whether that very link passed its check at
      minting or since. */
  datatype Minted = Never | Minted(link: string, at: Time, passed: bool)

  function LastMint(ops: seq<Op>, n: nat, key: string): Minted
    requires n <= |ops|
  {
    if n == 0 then Never
    else
      var before := LastMint(ops, n - 1, key);
      match ops[n - 1]
      case Mint(k, link, checked, now) => if k == key then Minted(link, now, checked) else before
      case Check(k, link) =>
        if k == key && before.Minted? && before.link == link then before.(passed := true) else before
      case _ => before
  }

  /** Every link held is the last one minted under its key, expires ten minutes after that, and is marked checked only
      if it passed. */
  ghost predicate Genuine(m: Memo, ops: seq<Op>, n: nat)
    requires n <= |ops|
  {
    forall k <- m.items :: SameLink(m.items[k], LastMint(ops, n, k))
  }

  predicate SameLink(l: Link, mint: Minted) {
    mint.Minted? && l.link == mint.link && l.expires == mint.at + LINK_TTL && l.checked == mint.passed
  }

  /** What every operation keeps. */
  ghost predicate Fine(m: Memo, ops: seq<Op>, n: nat)
    requires n <= |ops|
  {
    Matches(m) && |m.order| <= MAX_LINKS && Genuine(m, ops, n)
  }

  lemma {:induction false} AskKeeps(m: Memo, ops: seq<Op>, n: nat)
    requires n < |ops| && ops[n].Ask? && Fine(m, ops, n)
    ensures Fine(Step(m, ops[n]), ops, n + 1)
  {
    DroppedMatches(m, ops[n].key);
    TouchedHolds(m.order, ops[n].key);
  }

  lemma {:induction false} MintKeeps(m: Memo, ops: seq<Op>, n: nat)
    requires n < |ops| && ops[n].Mint? && Fine(m, ops, n)
    ensures Fine(Step(m, ops[n]), ops, n + 1)
  {
    var link := Link(ops[n].link, ops[n].checked, ops[n].now + LINK_TTL);
    var s := Stored(m, ops[n].key, link);
    StoredMatches(m, ops[n].key, link);
    TrimmedMatches(s);
    assert Genuine(s, ops, n + 1);
  }

  lemma {:induction false} CheckKeeps(m: Memo, ops: seq<Op>, n: nat)
    requires n < |ops| && ops[n].Check? && Fine(m, ops, n)
    ensures Fine(Step(m, ops[n]), ops, n + 1)
  {
  }

  lemma {:induction false} DropKeeps(m: Memo, ops: seq<Op>, n: nat)
    requires n < |ops| && ops[n].Drop? && Fine(m, ops, n)
    ensures Fine(Step(m, ops[n]), ops, n + 1)
  {
    DroppedMatches(m, ops[n].key);
  }

  lemma {:induction false} RunGenuine(ops: seq<Op>, n: nat)
    requires n <= |ops|
    ensures Fine(Run(ops, n), ops, n)
  {
    if n > 0 {
      RunGenuine(ops, n - 1);
      var m := Run(ops, n - 1);
      match ops[n - 1]
      case Ask(_, _) => AskKeeps(m, ops, n - 1);
      case Mint(_, _, _, _) => MintKeeps(m, ops, n - 1);
      case Check(_, _) => CheckKeeps(m, ops, n - 1);
      case Drop(_) => DropKeeps(m, ops, n - 1);
    }
  }

  /** The keys minted under by the first n operations. */
  function Keys(ops: seq<Op>, n: nat): set<string>
    requires n <= |ops|
  {
    if n == 0 then {} else Keys(ops, n - 1) + if ops[n - 1].Mint? then {ops[n - 1].key} else {}
  }

  /** The clock never goes back; a check and a drop read none. */
  predicate ClockRuns(ops: seq<Op>, n: nat, now: Time)
    requires n <= |ops|
  {
    n == 0
    || match ops[n - 1]
       case Ask(_, at) => at <= now && ClockRuns(ops, n - 1, at)
       case Mint(_, _, _, at) => at <= now && ClockRuns(ops, n - 1, at)
       case _ => ClockRuns(ops, n - 1, now)
  }

  /** A link was minted under the key, ten minutes ago or less, and the key was not dropped since. */
  predicate Fresh(ops: seq<Op>, n: nat, key: string, now: Time)
    requires n <= |ops|
  {
    n > 0
    && match ops[n - 1]
       case Mint(k, _, _, at) => if k == key then now < at + 10 * MINUTE else Fresh(ops, n - 1, key, now)
       case Drop(k) => k != key && Fresh(ops, n - 1, key, now)
       case _ => Fresh(ops, n - 1, key, now)
  }

  ghost predicate HoldsFresh(m: Memo, ops: seq<Op>, n: nat, now: Time)
    requires n <= |ops|
  {
    forall k: string :: Fresh(ops, n, k, now) ==> k in m.items && now < m.items[k].expires
  }

  lemma {:induction false} FreshBefore(ops: seq<Op>, n: nat, key: string, now: Time, later: Time)
    requires n <= |ops| && Fresh(ops, n, key, later) && now <= later
    ensures Fresh(ops, n, key, now)
  {
    if !(ops[n - 1].Mint? && ops[n - 1].key == key) {
      FreshBefore(ops, n - 1, key, now, later);
    }
  }

  function Those(order: seq<string>, n: nat): set<string>
    requires n <= |order|
  {
    if n == 0 then {} else Those(order, n - 1) + {order[n - 1]}
  }

  lemma {:induction false} NotTooMany(m: Memo, keys: set<string>)
    requires Matches(m) && m.items.Keys <= keys
    ensures |m.order| <= |keys|
  {
    AsManyKeys(m.order, |m.order|);
    assert m.order[..|m.order|] == m.order;
    FewerKeys(Those(m.order, |m.order|), keys);
  }

  lemma {:induction false} AsManyKeys(order: seq<string>, n: nat)
    requires n <= |order| && Distinct(order)
    ensures |Those(order, n)| == n && forall k :: k in Those(order, n) <==> k in order[..n]
  {
    if n > 0 {
      AsManyKeys(order, n - 1);
      NotBefore(order, n - 1);
      assert order[..n] == order[..n - 1] + [order[n - 1]];
    }
  }

  lemma {:induction false} FewerKeys(a: set<string>, b: set<string>)
    requires a <= b
    ensures |a| <= |b|
  {
    assert b == a + (b - a);
  }

  lemma {:induction false} HeldWereMinted(ops: seq<Op>, n: nat)
    requires n <= |ops|
    ensures Run(ops, n).items.Keys <= Keys(ops, n)
  {
    if n > 0 {
      HeldWereMinted(ops, n - 1);
    }
  }

  lemma {:induction false} FewKeys(ops: seq<Op>, n: nat, all: nat)
    requires n <= all <= |ops|
    ensures Keys(ops, n) <= Keys(ops, all)
  {
    if n < all {
      FewKeys(ops, n, all - 1);
    }
  }

  lemma {:induction false} MintKeepsAll(m: Memo, op: Op, keys: set<string>)
    requires Matches(m) && op.Mint? && m.items.Keys + {op.key} <= keys && |keys| <= MAX_LINKS
    ensures Step(m, op).items == m.items[op.key := Link(op.link, op.checked, op.now + LINK_TTL)]
  {
    var s := Stored(m, op.key, Link(op.link, op.checked, op.now + LINK_TTL));
    StoredMatches(m, op.key, Link(op.link, op.checked, op.now + LINK_TTL));
    NotTooMany(s, keys);
  }

  lemma {:induction false} KeepsFresh(ops: seq<Op>, n: nat, now: Time)
    requires n <= |ops| && ClockRuns(ops, n, now) && |Keys(ops, |ops|)| <= MAX_LINKS
    ensures HoldsFresh(Run(ops, n), ops, n, now)
  {
    if n > 0 {
      var m, op := Run(ops, n - 1), ops[n - 1];
      var at := if op.Ask? || op.Mint? then op.now else now;
      KeepsFresh(ops, n - 1, at);
      RunGenuine(ops, n - 1);
      HeldWereMinted(ops, n - 1);
      FewKeys(ops, n, |ops|);
      if op.Mint? {
        MintKeepsAll(m, op, Keys(ops, |ops|));
      }
      forall k: string | Fresh(ops, n, k, now) ensures k in Run(ops, n).items && now < Run(ops, n).items[k].expires {
        if !(op.Mint? && op.key == k) {
          FreshBefore(ops, n - 1, k, at, now);
          RunGenuine(ops, n);
          FreshIsLast(ops, n, k, now);
        }
      }
    }
  }

  /** What is fresh was minted last, less than ten minutes before. */
  lemma {:induction false} FreshIsLast(ops: seq<Op>, n: nat, key: string, now: Time)
    requires n <= |ops| && Fresh(ops, n, key, now)
    ensures LastMint(ops, n, key).Minted? && now < LastMint(ops, n, key).at + 10 * MINUTE
  {
    if !(ops[n - 1].Mint? && ops[n - 1].key == key) {
      FreshIsLast(ops, n - 1, key, now);
    }
  }

  lemma {:induction false} HeldNotDropped(ops: seq<Op>, n: nat, key: string, now: Time)
    requires n <= |ops| && key in Run(ops, n).items && now < Run(ops, n).items[key].expires
    ensures Fresh(ops, n, key, now)
  {
    if n > 0 && !(ops[n - 1].Mint? && ops[n - 1].key == key) {
      RunGenuine(ops, n - 1);
      DroppedMatches(Run(ops, n - 1), ops[n - 1].key);
      HeldNotDropped(ops, n - 1, key, now);
    }
  }

  /** While no more than 256 keys are in use nothing is lost: over every run on a clock that does not go back, a link is
      served if and only if one was minted under its key less than ten minutes ago and the key was not dropped since. */
  lemma {:induction false} ServesExactlyWhileFew(ops: seq<Op>, key: string, now: Time)
    requires ClockRuns(ops, |ops|, now) && |Keys(ops, |ops|)| <= 256
    ensures Got(Run(ops, |ops|), key, now).1.Some? <==> Fresh(ops, |ops|, key, now)
  {
    KeepsFresh(ops, |ops|, now);
    if Got(Run(ops, |ops|), key, now).1.Some? {
      HeldNotDropped(ops, |ops|, key, now);
    }
  }

  /** In every run at most 256 links are held, and one served is the last one minted under its key, less than ten
      minutes old whatever was checked or asked since, and counted as checked only if that very link was. */
  lemma {:induction false} ServesOnlyFreshLinks(ops: seq<Op>, key: string, now: Time)
    ensures var m := Run(ops, |ops|);
            var found, mint := Got(m, key, now).1, LastMint(ops, |ops|, key);
            |m.items| <= 256
            && (found.Some? ==> mint.Minted? && found.value.link == mint.link && now < mint.at + 10 * MINUTE
                                && found.value.checked == mint.passed)
  {
    RunGenuine(ops, |ops|);
    var m := Run(ops, |ops|);
    AtMost(m.order, m.items.Keys, |m.order|);
    assert m.order[..|m.order|] == m.order;
    assert |m.items| == |m.items.Keys|;
  }

  // ---- least recently used ----

  /** Minting a key's link uses the key, and so does asking for it while the link lives. */
  predicate Uses(m: Memo, op: Op) {
    match op
    case Mint(_, _, _, _) => true
    case Ask(key, now) => key in m.items && now < m.items[key].expires
    case _ => false
  }

  /** The last of the first n operations that used a key, or -1. */
  function LastUse(ops: seq<Op>, n: nat, key: string): (i: int)
    requires n <= |ops|
    ensures i < n
  {
    if n == 0 then -1
    else if ops[n - 1].key == key && Uses(Run(ops, n - 1), ops[n - 1]) then n - 1
    else LastUse(ops, n - 1, key)
  }

  /** What one more operation makes of the last uses. */
  ghost predicate Since(m: Memo, op: Op, used: string -> int, since: string -> int) {
    (forall k :: k != op.key || !Uses(m, op) ==> since(k) == used(k))
    && (Uses(m, op) ==> forall k :: k != op.key ==> since(k) < since(op.key))
  }

  lemma {:induction false} AskByUse(m: Memo, op: Op, used: string -> int, since: string -> int)
    requires op.Ask? && Matches(m) && ByUse(m.order, used) && Since(m, op, used, since)
    ensures ByUse(Got(m, op.key, op.now).0.order, since)
  {
    if Uses(m, op) {
      TouchedByUse(m.order, used, since, op.key);
    } else {
      SameByUse(m.order, used, since);
      WithoutByUse(m.order, since, |m.order|, op.key);
    }
  }

  lemma {:induction false} MintByUse(m: Memo, op: Op, used: string -> int, since: string -> int)
    requires op.Mint? && Matches(m) && ByUse(m.order, used) && Since(m, op, used, since)
    ensures ByUse(Put(m, op.key, op.link, op.checked, op.now).order, since)
  {
    TouchedByUse(m.order, used, since, op.key);
    var s := Touched(m.order, op.key);
    PrefixByUse(s, since, if |s| <= MAX_LINKS then |s| else MAX_LINKS);
  }

  lemma {:induction false} StepByUse(m: Memo, op: Op, used: string -> int, since: string -> int)
    requires Matches(m) && ByUse(m.order, used) && Since(m, op, used, since)
    ensures ByUse(Step(m, op).order, since)
  {
    match op
    case Ask(_, _) => AskByUse(m, op, used, since);
    case Mint(_, _, _, _) => MintByUse(m, op, used, since);
    case Check(_, _) => SameByUse(m.order, used, since);
    case Drop(key) =>
      SameByUse(m.order, used, since);
      WithoutByUse(m.order, since, |m.order|, key);
  }

  lemma {:induction false} LastUseSince(ops: seq<Op>, n: nat)
    requires 0 < n <= |ops|
    ensures Since(Run(ops, n - 1), ops[n - 1], k => LastUse(ops, n - 1, k), k => LastUse(ops, n, k))
  {
  }

  /** In every run the keys stand by last use, the latest first; a check is none. */
  lemma {:induction false} StandsByUse(ops: seq<Op>, n: nat)
    requires n <= |ops|
    ensures ByUse(Run(ops, n).order, k => LastUse(ops, n, k))
  {
    if n > 0 {
      RunGenuine(ops, n - 1);
      StandsByUse(ops, n - 1);
      LastUseSince(ops, n);
      StepByUse(Run(ops, n - 1), ops[n - 1], k => LastUse(ops, n - 1, k), k => LastUse(ops, n, k));
    }
  }

  lemma {:induction false} MintEvicts(m: Memo, op: Op, used: string -> int, since: string -> int, gone: string,
                                      stays: string)
    requires op.Mint? && Matches(m) && ByUse(m.order, used) && Since(m, op, used, since)
    requires gone in m.items && gone !in Step(m, op).items && stays in Step(m, op).items
    ensures since(gone) < since(stays)
  {
    var s := Stored(m, op.key, Link(op.link, op.checked, op.now + LINK_TTL));
    TouchedByUse(m.order, used, since, op.key);
    StoredMatches(m, op.key, Link(op.link, op.checked, op.now + LINK_TTL));
    LeftOutByUse(s.order, since, MAX_LINKS, gone, stays);
  }

  /** So the memo forgets the least recently used: in every run, a key that leaves to make room was last used before any
      that stays. */
  lemma {:induction false} ForgetsLeastRecentlyUsed(ops: seq<Op>, n: nat, gone: string, stays: string)
    requires n < |ops| && ops[n].Mint?
    requires gone in Run(ops, n).items && gone !in Run(ops, n + 1).items && stays in Run(ops, n + 1).items
    ensures LastUse(ops, n + 1, gone) < LastUse(ops, n + 1, stays)
  {
    RunGenuine(ops, n);
    StandsByUse(ops, n);
    LastUseSince(ops, n + 1);
    MintEvicts(Run(ops, n), ops[n], k => LastUse(ops, n, k), k => LastUse(ops, n + 1, k), gone, stays);
  }

  lemma {:induction false} AtMost(order: seq<string>, keys: set<string>, n: nat)
    requires n <= |order| && forall k <- keys :: k in order[..n]
    ensures |keys| <= n
  {
    if n > 0 {
      assert order[..n] == order[..n - 1] + [order[n - 1]];
      AtMost(order, keys - {order[n - 1]}, n - 1);
    } else {
      assert keys == {};
    }
  }
}
