// The rolling, per-account ceiling on debrid adds (internal/scout/addbudget.go).
//
// An account's charges are kept oldest first. A charge is live while it is younger than the window; an add
// is granted while fewer charges are live than the ceiling for its intent.
module AddBudget {
  import opened Common

  // ---- one account's charges ----

  ghost predicate AscendingTo(s: seq<Time>, n: nat)
    requires n <= |s|
  {
    n < 2 || (s[n - 2] <= s[n - 1] && AscendingTo(s, n - 1))
  }

  ghost predicate Ascending(s: seq<Time>) {
    AscendingTo(s, |s|)
  }

  ghost predicate UpTo(s: seq<Time>, latest: Time) {
    |s| == 0 || s[|s| - 1] <= latest
  }

  lemma {:induction false} InOrder(s: seq<Time>, n: nat, i: nat, j: nat)
    requires n <= |s| && AscendingTo(s, n) && i <= j < n
    ensures s[i] <= s[j]
  {
    if j < n - 1 {
      InOrder(s, n - 1, i, j);
    } else if i < j {
      InOrder(s, n - 1, i, j - 1);
    }
  }

  /** Two lists that agree on their first n are ordered alike there. */
  lemma {:induction false} SameOrder(s: seq<Time>, r: seq<Time>, n: nat, from: nat)
    requires from + n <= |s| && n <= |r| && AscendingTo(s, from + n)
    requires forall i :: 0 <= i < n ==> r[i] == s[from + i]
    ensures AscendingTo(r, n)
  {
    if n >= 2 {
      assert r[n - 2] == s[from + (n - 2)];
      SameOrder(s, r, n - 1, from);
    }
  }

  /** The charges among the first n that are younger than the cutoff, in order. */
  function LiveTo(s: seq<Time>, n: nat, cutoff: Time): seq<Time>
    requires n <= |s|
  {
    if n == 0 then []
    else if s[n - 1] > cutoff then LiveTo(s, n - 1, cutoff) + [s[n - 1]]
    else LiveTo(s, n - 1, cutoff)
  }

  function Live(s: seq<Time>, cutoff: Time): seq<Time> {
    LiveTo(s, |s|, cutoff)
  }

  /** Where the live charges of an ordered list begin. */
  function Cut(s: seq<Time>, n: nat, cutoff: Time): (k: nat)
    requires n <= |s|
    ensures k <= n && (k > 0 ==> s[k - 1] <= cutoff) && (k < n ==> s[k] > cutoff)
  {
    if n == 0 || s[n - 1] <= cutoff then n else Cut(s, n - 1, cutoff)
  }

  lemma {:induction false} CutIs(s: seq<Time>, k: nat, cutoff: Time)
    requires Ascending(s) && k <= |s|
    requires (k > 0 ==> s[k - 1] <= cutoff) && (k < |s| ==> s[k] > cutoff)
    ensures Cut(s, |s|, cutoff) == k
  {
    var c := Cut(s, |s|, cutoff);
    if c < k {
      InOrder(s, |s|, c, k - 1);
    } else if k < c {
      InOrder(s, |s|, k, c - 1);
    }
  }

  lemma {:induction false} LiveToIsSuffix(s: seq<Time>, n: nat, cutoff: Time)
    requires n <= |s| && AscendingTo(s, n)
    ensures var k, live := Cut(s, n, cutoff), LiveTo(s, n, cutoff);
            |live| == n - k && forall i :: 0 <= i < |live| ==> live[i] == s[k + i]
  {
    if n > 0 {
      LiveToIsSuffix(s, n - 1, cutoff);
      if s[n - 1] > cutoff {
        assert LiveTo(s, n, cutoff) == LiveTo(s, n - 1, cutoff) + [s[n - 1]];
      } else {
        assert Cut(s, n - 1, cutoff) == n - 1;
      }
    }
  }

  lemma {:induction false} LiveIsSuffix(s: seq<Time>, cutoff: Time)
    requires Ascending(s)
    ensures var k, live := Cut(s, |s|, cutoff), Live(s, cutoff);
            |live| == |s| - k && (forall i :: 0 <= i < |live| ==> live[i] == s[k + i])
            && Ascending(live) && forall latest :: UpTo(s, latest) ==> UpTo(live, latest)
  {
    LiveToIsSuffix(s, |s|, cutoff);
    var k, live := Cut(s, |s|, cutoff), Live(s, cutoff);
    SameOrder(s, live, |live|, k);
  }

  predicate Drained(s: seq<Time>, cutoff: Time) {
    |s| == 0 || s[|s| - 1] <= cutoff
  }

  lemma {:induction false} DrainedIsEmpty(s: seq<Time>, cutoff: Time)
    requires Ascending(s) && Drained(s, cutoff)
    ensures Live(s, cutoff) == []
  {
    LiveIsSuffix(s, cutoff);
  }

  lemma {:induction false} LiveAgain(s: seq<Time>, c1: Time, c2: Time)
    requires Ascending(s) && c1 <= c2
    ensures Ascending(Live(s, c1)) && Live(Live(s, c1), c2) == Live(s, c2)
  {
    LiveIsSuffix(s, c1);
    LiveIsSuffix(s, c2);
    var k, l := Cut(s, |s|, c1), Live(s, c1);
    LiveIsSuffix(l, c2);
    var j := Cut(l, |l|, c2);
    assert j > 0 ==> l[j - 1] == s[k + (j - 1)];
    assert j < |l| ==> l[j] == s[k + j];
    CutIs(s, k + j, c2);
  }

  lemma {:induction false} LiveAppend(s: seq<Time>, t: Time, cutoff: Time)
    requires Ascending(s) && UpTo(s, t)
    ensures Ascending(s + [t]) && UpTo(s + [t], t)
    ensures Live(s + [t], cutoff) == if t > cutoff then Live(s, cutoff) + [t] else []
  {
    LiveIsSuffix(s, cutoff);
    SameOrder(s, s + [t], |s|, 0);
    LiveIsSuffix(s + [t], cutoff);
    if t <= cutoff && |s| > 0 {
      DrainedIsEmpty(s, cutoff);
    }
    CutIs(s + [t], if t > cutoff then Cut(s, |s|, cutoff) else |s| + 1, cutoff);
  }

  /** All but the newest charge. */
  function Pop(s: seq<Time>): seq<Time> {
    if |s| == 0 then s else seq(|s| - 1, i requires 0 <= i < |s| - 1 => s[i])
  }

  lemma {:induction false} LivePop(s: seq<Time>, cutoff: Time)
    requires Ascending(s)
    ensures Ascending(Pop(s)) && Live(Pop(s), cutoff) == Pop(Live(s, cutoff))
  {
    LiveIsSuffix(s, cutoff);
    SameOrder(s, Pop(s), |Pop(s)|, 0);
    LiveIsSuffix(Pop(s), cutoff);
    CutIs(Pop(s), Min(Cut(s, |s|, cutoff), |Pop(s)|), cutoff);
  }

  /** From one cutoff to a later one, only the charge holding the ceiling matters. */
  lemma {:induction false} LaterCeiling(s: seq<Time>, c1: Time, c2: Time, c: int)
    requires Ascending(s) && c > 0 && c1 <= c2
    ensures var live := Live(s, c1);
            (|Live(s, c2)| < c <==> |live| < c || live[|live| - c] <= c2)
            && (|live| >= c ==> live[|live| - c] > c1)
  {
    LiveIsSuffix(s, c1);
    LiveIsSuffix(s, c2);
    var k1, k2, at := Cut(s, |s|, c1), Cut(s, |s|, c2), |s| - c;
    if k1 <= at {
      InOrder(s, |s|, k1, at);
      if k2 <= at {
        InOrder(s, |s|, k2, at);
      } else {
        InOrder(s, |s|, at, k2 - 1);
      }
    } else if k2 < k1 {
      InOrder(s, |s|, k2, k1 - 1);
    }
  }

  // ---- the budget ----

  type Ledger = map<string, seq<Time>>

  function Stamps(spent: Ledger, account: string): seq<Time> {
    if account in spent then spent[account] else []
  }

  ghost predicate Orderly(spent: Ledger, latest: Time) {
    forall a <- spent :: Ascending(spent[a]) && UpTo(spent[a], latest)
  }

  function Undrained(spent: Ledger, cutoff: Time): Ledger {
    map a | a in spent && !Drained(spent[a], cutoff) :: spent[a]
  }

  function Ceiling(limit: int, reserve: int, prefetch: bool): int {
    if prefetch then limit - reserve else limit
  }

  /** What is left of an account's hour. */
  function Left(stamps: seq<Time>, cutoff: Time, limit: int): int {
    Max(limit - |Live(stamps, cutoff)|, 0)
  }

  /** How long until one more charge fits under the ceiling. */
  function Wait(stamps: seq<Time>, now: Time, window: Time, ceiling: int): Time {
    var live := Live(stamps, now - window);
    if ceiling <= 0 then window
    else if |live| < ceiling then 0
    else live[|live| - ceiling] + window - now
  }

  function AfterTake(spent: Ledger, account: string, granted: bool, now: Time, window: Time): Ledger {
    var kept := Live(Stamps(spent, account), now - window);
    Undrained(spent, now - window)[account := if granted then kept + [now] else kept]
  }

  function AfterRefund(spent: Ledger, account: string): Ledger {
    if |Stamps(spent, account)| == 0 then spent else spent[account := Pop(spent[account])]
  }

  lemma {:induction false} AfterTakeOrderly(spent: Ledger, account: string, granted: bool, now: Time, window: Time,
                                            latest: Time)
    requires Orderly(spent, latest) && latest <= now
    ensures Orderly(AfterTake(spent, account, granted, now, window), now)
  {
    var after := AfterTake(spent, account, granted, now, window);
    KeptOrderly(Stamps(spent, account), granted, now, now - window);
    forall a | a in after ensures Ascending(after[a]) && UpTo(after[a], now) {
      if a != account {
        assert after[a] == spent[a];
      }
    }
  }

  lemma {:induction false} KeptOrderly(stamps: seq<Time>, granted: bool, now: Time, cutoff: Time)
    requires Ascending(stamps) && UpTo(stamps, now)
    ensures var live := Live(stamps, cutoff);
            var kept := if granted then live + [now] else live;
            Ascending(kept) && UpTo(kept, now)
  {
    LiveIsSuffix(stamps, cutoff);
    LiveAppend(Live(stamps, cutoff), now, cutoff);
  }

  lemma {:induction false} AfterRefundOrderly(spent: Ledger, account: string, latest: Time)
    requires Orderly(spent, latest)
    ensures Orderly(AfterRefund(spent, account), latest)
  {
    var s := Stamps(spent, account);
    LivePop(s, latest);
    if |s| >= 2 {
      InOrder(s, |s|, |s| - 2, |s| - 1);
    }
  }

  lemma {:induction false} UndrainedSameLive(spent: Ledger, cutoff: Time, latest: Time, account: string)
    requires Orderly(spent, latest)
    ensures Live(Stamps(Undrained(spent, cutoff), account), cutoff) == Live(Stamps(spent, account), cutoff)
  {
    if account in spent && Drained(spent[account], cutoff) {
      DrainedIsEmpty(spent[account], cutoff);
    }
  }

  class Budget {
    var spent: Ledger
    const window: Time
    const limit: int
    var reserve: int
    ghost var latest: Time // the newest clock reading any call has seen; readings never go back

    constructor (window: Time, limit: int, reserve: int, now: Time)
      ensures Valid() && spent == map[] && latest == now
      ensures this.window == window && this.limit == limit && this.reserve == reserve
    {
      this.spent, this.window, this.limit, this.reserve := map[], window, limit, reserve;
      latest := now;
    }

    ghost predicate Valid()
      reads this
    {
      Orderly(spent, latest)
    }

    method DropDrained(cutoff: Time)
      modifies this`spent
      ensures spent == Undrained(old(spent), cutoff)
    {
      var todo := spent.Keys;
      while todo != {}
        invariant todo <= spent.Keys <= old(spent).Keys
        invariant forall a <- spent :: spent[a] == old(spent)[a]
        invariant forall a <- old(spent) :: a !in todo ==> (a in spent <==> !Drained(old(spent)[a], cutoff))
        decreases todo
      {
        var a :| a in todo;
        if Drained(spent[a], cutoff) {
          spent := spent - {a};
        }
        todo := todo - {a};
      }
    }

    /** The loop that keeps an account's live charges, in order. */
    static method KeepLive(stamps: seq<Time>, cutoff: Time) returns (kept: seq<Time>)
      ensures kept == Live(stamps, cutoff)
    {
      kept := [];
      for i := 0 to |stamps|
        invariant kept == LiveTo(stamps, i, cutoff)
      {
        if stamps[i] > cutoff {
          kept := kept + [stamps[i]];
        }
      }
    }

    /** Charges an add, or refuses it. A refusal spends nothing. */
    method Take(account: string, prefetch: bool, now: Time) returns (granted: bool)
      requires Valid() && latest <= now
      modifies this`spent, this`latest
      ensures Valid() && latest == now
      ensures granted <==> |Live(Stamps(old(spent), account), now - window)| < Ceiling(limit, reserve, prefetch)
      ensures spent == AfterTake(old(spent), account, granted, now, window)
    {
      UndrainedSameLive(spent, now - window, latest, account);
      ghost var before := spent;
      DropDrained(now - window);
      var kept := KeepLive(Stamps(spent, account), now - window);
      granted := |kept| < Ceiling(limit, reserve, prefetch);
      AfterTakeOrderly(before, account, granted, now, window, latest);
      spent := spent[account := if granted then kept + [now] else kept];
      latest := now;
    }

    /** Gives the newest charge back. */
    method Refund(account: string)
      requires Valid()
      modifies this`spent
      ensures Valid()
      ensures spent == AfterRefund(old(spent), account)
    {
      var s := Stamps(spent, account);
      if |s| == 0 {
        return;
      }
      AfterRefundOrderly(spent, account, latest);
      assert s[..|s| - 1] == Pop(s);
      spent := spent[account := s[..|s| - 1]];
    }

    method Remaining(account: string, now: Time) returns (left: int)
      requires Valid()
      ensures left == Left(Stamps(spent, account), now - window, limit)
    {
      var s := Stamps(spent, account);
      var live := 0;
      for i := 0 to |s|
        invariant live == |LiveTo(s, i, now - window)|
      {
        if s[i] > now - window {
          live := live + 1;
        }
      }
      left := if limit - live > 0 then limit - live else 0;
    }

    method FreesIn(account: string, prefetch: bool, now: Time) returns (wait: Time)
      requires Valid()
      ensures wait == Wait(Stamps(spent, account), now, window, Ceiling(limit, reserve, prefetch))
    {
      var live := KeepLive(Stamps(spent, account), now - window);
      var ceiling := Ceiling(limit, reserve, prefetch);
      if ceiling <= 0 {
        return window;
      }
      if |live| < ceiling {
        return 0;
      }
      wait := live[|live| - ceiling] + window - now;
    }
  }

  // ---- what the answers mean ----

  /** The wait is exact: with a positive ceiling and no charge in between, an add is granted at now + d if and
      only if d has reached the wait. */
  lemma {:induction false} ExactWait(stamps: seq<Time>, now: Time, window: Time, ceiling: int, d: Time)
    requires Ascending(stamps) && ceiling > 0 && d >= 0
    ensures |Live(stamps, now + d - window)| < ceiling <==> d >= Wait(stamps, now, window, ceiling)
  {
    var c1, c2 := now - window, now + d - window;
    LaterCeiling(stamps, c1, c2, ceiling);
  }

  /** A remaining count is positive exactly when a viewer's add would be granted. */
  lemma {:induction false} RemainingExactly(stamps: seq<Time>, cutoff: Time, limit: int)
    ensures Left(stamps, cutoff, limit) > 0 <==> |Live(stamps, cutoff)| < Ceiling(limit, 0, false)
  {
  }

  /** The charges after k more adds at one instant. */
  function Again(stamps: seq<Time>, now: Time, k: nat): seq<Time> {
    if k == 0 then stamps else Again(stamps, now, k - 1) + [now]
  }

  /** What is left is how many: of adds made at one instant, exactly so many are granted. */
  lemma {:induction false} RemainingIsHowMany(stamps: seq<Time>, now: Time, window: Time, limit: int, k: nat)
    requires window > 0 && Ascending(stamps) && UpTo(stamps, now)
    ensures Ascending(Again(stamps, now, k)) && UpTo(Again(stamps, now, k), now)
    ensures |Live(Again(stamps, now, k), now - window)| == |Live(stamps, now - window)| + k
    ensures |Live(Again(stamps, now, k), now - window)| < limit <==> k < Left(stamps, now - window, limit)
  {
    if k > 0 {
      RemainingIsHowMany(stamps, now, window, limit, k - 1);
      LiveAppend(Again(stamps, now, k - 1), now, now - window);
    }
  }

  // ---- forgetting drained accounts is invisible ----

  datatype Call =
    | Take(account: string, prefetch: bool, now: Time)
    | Refund(account: string)
    | Remaining(account: string, now: Time)
    | FreesIn(account: string, prefetch: bool, now: Time)

  datatype Answer = Granted(yes: bool) | Done | Count(n: int)

  datatype Policy = Policy(window: Time, limit: int, reserve: int)

  predicate Grants(p: Policy, spent: Ledger, account: string, prefetch: bool, now: Time) {
    |Live(Stamps(spent, account), now - p.window)| < Ceiling(p.limit, p.reserve, prefetch)
  }

  function AnswerTo(p: Policy, spent: Ledger, call: Call): Answer {
    match call
    case Take(a, prefetch, now) => Granted(Grants(p, spent, a, prefetch, now))
    case Refund(a) => Done
    case Remaining(a, now) => Count(Left(Stamps(spent, a), now - p.window, p.limit))
    case FreesIn(a, prefetch, now) =>
      Count(Wait(Stamps(spent, a), now, p.window, Ceiling(p.limit, p.reserve, prefetch)))
  }

  /** The ledger after a call; `forgets` false turns dropDrainedLocked off. */
  function After(p: Policy, spent: Ledger, call: Call, forgets: bool): Ledger {
    match call
    case Take(a, prefetch, now) =>
      var after := AfterTake(spent, a, Grants(p, spent, a, prefetch, now), now, p.window);
      if forgets then after else spent[a := after[a]]
    case Refund(a) => AfterRefund(spent, a)
    case _ => spent
  }

  function Reading(call: Call, latest: Time): Time {
    if call.Refund? then latest else call.now
  }

  /** Every answer of a budget that forgets and of one that does not, call by call. */
  ghost predicate SameAnswers(p: Policy, x: Ledger, y: Ledger, calls: seq<Call>)
    decreases |calls|
  {
    |calls| == 0 ||
    (AnswerTo(p, x, calls[0]) == AnswerTo(p, y, calls[0])
     && SameAnswers(p, After(p, x, calls[0], true), After(p, y, calls[0], false), calls[1..]))
  }

  ghost predicate ClockRuns(calls: seq<Call>, latest: Time)
    decreases |calls|
  {
    |calls| == 0 ||
    (latest <= Reading(calls[0], latest) && ClockRuns(calls[1..], Reading(calls[0], latest)))
  }

  /** Two ledgers no live charge tells apart. */
  ghost predicate SameLive(x: Ledger, y: Ledger, cutoff: Time) {
    forall a :: Live(Stamps(x, a), cutoff) == Live(Stamps(y, a), cutoff)
  }

  lemma {:induction false} SameLiveLater(x: Ledger, y: Ledger, c1: Time, c2: Time, latest: Time)
    requires Orderly(x, latest) && Orderly(y, latest) && SameLive(x, y, c1) && c1 <= c2
    ensures SameLive(x, y, c2)
  {
    forall a ensures Live(Stamps(x, a), c2) == Live(Stamps(y, a), c2) {
      LiveAgain(Stamps(x, a), c1, c2);
      LiveAgain(Stamps(y, a), c1, c2);
      assert Live(Stamps(x, a), c1) == Live(Stamps(y, a), c1);
    }
  }

  lemma {:induction false} TakeSame(p: Policy, x: Ledger, y: Ledger, call: Call, latest: Time)
    requires call.Take? && Orderly(x, latest) && Orderly(y, latest) && latest <= call.now
    requires SameLive(x, y, call.now - p.window)
    ensures var x', y' := After(p, x, call, true), After(p, y, call, false);
            Orderly(x', call.now) && Orderly(y', call.now) && SameLive(x', y', call.now - p.window)
  {
    var acc, now, cutoff := call.account, call.now, call.now - p.window;
    var x', y' := After(p, x, call, true), After(p, y, call, false);
    AfterTakeOrderly(x, acc, Grants(p, x, acc, call.prefetch, now), now, p.window, latest);
    AfterTakeOrderly(y, acc, Grants(p, y, acc, call.prefetch, now), now, p.window, latest);
    assert Live(Stamps(x, acc), cutoff) == Live(Stamps(y, acc), cutoff);
    forall c ensures Live(Stamps(x', c), cutoff) == Live(Stamps(y', c), cutoff) {
      if c != acc {
        assert Stamps(x', c) == Stamps(Undrained(x, cutoff), c) && Stamps(y', c) == Stamps(y, c);
        UndrainedSameLive(x, cutoff, latest, c);
        assert Live(Stamps(x, c), cutoff) == Live(Stamps(y, c), cutoff);
      }
    }
  }

  lemma {:induction false} RefundSame(x: Ledger, y: Ledger, acc: string, latest: Time, cutoff: Time)
    requires Orderly(x, latest) && Orderly(y, latest) && SameLive(x, y, cutoff)
    ensures SameLive(AfterRefund(x, acc), AfterRefund(y, acc), cutoff)
  {
    LivePop(Stamps(x, acc), cutoff);
    LivePop(Stamps(y, acc), cutoff);
    forall c ensures Live(Stamps(AfterRefund(x, acc), c), cutoff) == Live(Stamps(AfterRefund(y, acc), c), cutoff) {
      assert Live(Stamps(x, c), cutoff) == Live(Stamps(y, c), cutoff);
      if c == acc {
        assert Stamps(AfterRefund(x, acc), c) == Pop(Stamps(x, acc));
        assert Stamps(AfterRefund(y, acc), c) == Pop(Stamps(y, acc));
      }
    }
  }

  lemma {:induction false} StepSame(p: Policy, x: Ledger, y: Ledger, call: Call, latest: Time)
    requires Orderly(x, latest) && Orderly(y, latest) && latest <= Reading(call, latest)
    requires SameLive(x, y, Reading(call, latest) - p.window)
    ensures var now := Reading(call, latest);
            var x', y' := After(p, x, call, true), After(p, y, call, false);
            Orderly(x', now) && Orderly(y', now) && SameLive(x', y', now - p.window)
  {
    match call
    case Take(_, _, _) => TakeSame(p, x, y, call, latest);
    case Refund(acc) =>
      RefundSame(x, y, acc, latest, latest - p.window);
      AfterRefundOrderly(x, acc, latest);
      AfterRefundOrderly(y, acc, latest);
    case _ =>
      OrderlyLater(x, latest, call.now);
      OrderlyLater(y, latest, call.now);
  }

  lemma {:induction false} OrderlyLater(spent: Ledger, now: Time, latest: Time)
    requires Orderly(spent, now) && now <= latest
    ensures Orderly(spent, latest)
  {
  }

  lemma {:induction false} AnswerSame(p: Policy, x: Ledger, y: Ledger, call: Call, latest: Time)
    requires SameLive(x, y, Reading(call, latest) - p.window)
    ensures AnswerTo(p, x, call) == AnswerTo(p, y, call)
  {
    var cutoff := Reading(call, latest) - p.window;
    assert Live(Stamps(x, call.account), cutoff) == Live(Stamps(y, call.account), cutoff);
  }

  /** Over any later calls, an account forgotten once its window has emptied changes no answer: not a grant, not a
      remaining count, not a wait. */
  lemma {:induction false} ForgettingIsInvisible(p: Policy, x: Ledger, y: Ledger, calls: seq<Call>, latest: Time)
    requires Orderly(x, latest) && Orderly(y, latest) && SameLive(x, y, latest - p.window)
    requires ClockRuns(calls, latest)
    ensures SameAnswers(p, x, y, calls)
    decreases |calls|
  {
    if |calls| > 0 {
      var call, now := calls[0], Reading(calls[0], latest);
      SameLiveLater(x, y, latest - p.window, now - p.window, latest);
      AnswerSame(p, x, y, call, latest);
      StepSame(p, x, y, call, latest);
      ForgettingIsInvisible(p, After(p, x, call, true), After(p, y, call, false), calls[1..], now);
    }
  }

  // ---- the ceiling holds over every run ----

  /** An add asked for, or the give-back of one the service answered "nothing created" to, which names the add it
      is for by the instant that add was charged. */
  datatype Event =
    | Add(account: string, prefetch: bool, now: Time)
    | GiveBack(account: string, charged: Time)

  /** The ledger after the first n events of a run. */
  function LedgerAfter(p: Policy, run: seq<Event>, n: nat): Ledger
    requires n <= |run|
  {
    if n == 0 then map[] else
      var before := LedgerAfter(p, run, n - 1);
      match run[n - 1]
      case Add(a, prefetch, now) => AfterTake(before, a, Grants(p, before, a, prefetch, now), now, p.window)
      case GiveBack(a, _) => AfterRefund(before, a)
  }

  /** The adds of an account the service may be counting, oldest first: granted, and not answered "nothing
      created". */
  function Counted(p: Policy, run: seq<Event>, n: nat, account: string): seq<Time>
    requires n <= |run|
  {
    if n == 0 then [] else
      var before := Counted(p, run, n - 1, account);
      if run[n - 1].account != account then before
      else match run[n - 1]
        case Add(a, prefetch, now) =>
          if Grants(p, LedgerAfter(p, run, n - 1), a, prefetch, now) then before + [now] else before
        case GiveBack(_, charged) => Without(before, charged)
  }

  /** A list less its newest entry for an instant. */
  function Without(s: seq<Time>, t: Time): seq<Time>
    decreases |s|
  {
    if |s| == 0 then s
    else if s[|s| - 1] == t then Pop(s)
    else Without(Pop(s), t) + [s[|s| - 1]]
  }

  /** Readings never go back, and each give-back follows its own add on that account: nothing else was charged
      there in between. */
  ghost predicate Sequential(p: Policy, run: seq<Event>, n: nat, latest: Time)
    requires n <= |run|
  {
    n == 0 ||
    match run[n - 1]
    case Add(_, _, now) => now <= latest && Sequential(p, run, n - 1, now)
    case GiveBack(a, charged) =>
      var before := Counted(p, run, n - 1, a);
      |before| > 0 && before[|before| - 1] == charged && Sequential(p, run, n - 1, latest)
  }

  /** An add `limit` places after another comes at least a window after it. */
  ghost predicate Spaced(s: seq<Time>, window: Time, limit: int) {
    forall i, j :: 0 <= i < |s| && 0 <= j < |s| && i + limit <= j ==> s[i] + window <= s[j]
  }

  /** The charges kept for an account are, among the live ones, exactly the adds the service may be counting. */
  ghost predicate Covered(kept: seq<Time>, stamps: seq<Time>, latest: Time, p: Policy) {
    Ascending(kept) && UpTo(kept, latest) && Spaced(kept, p.window, p.limit)
    && Live(kept, latest - p.window) == Live(stamps, latest - p.window)
  }

  lemma {:induction false} CoveredLater(kept: seq<Time>, stamps: seq<Time>, now: Time, latest: Time, p: Policy)
    requires Covered(kept, stamps, now, p) && now <= latest && Ascending(stamps)
    ensures Covered(kept, stamps, latest, p)
  {
    LiveAgain(kept, now - p.window, latest - p.window);
    LiveAgain(stamps, now - p.window, latest - p.window);
  }

  lemma {:induction false} SpacedAfterGrant(kept: seq<Time>, now: Time, window: Time, limit: int)
    requires Ascending(kept) && UpTo(kept, now) && Spaced(kept, window, limit)
    requires |Live(kept, now - window)| < limit
    ensures Spaced(kept + [now], window, limit)
  {
    LiveIsSuffix(kept, now - window);
    var k := Cut(kept, |kept|, now - window);
    forall i | 0 <= i < |kept| && i + limit <= |kept| ensures kept[i] + window <= now {
      InOrder(kept, |kept|, i, k - 1);
    }
  }

  lemma {:induction false} CoveredTake(kept: seq<Time>, before: Ledger, e: Event, account: string, p: Policy)
    requires e.Add? && Orderly(before, e.now) && p.window > 0 && p.reserve >= 0
    requires Covered(kept, Stamps(before, account), e.now, p)
    ensures var granted := Grants(p, before, e.account, e.prefetch, e.now);
            var after := AfterTake(before, e.account, granted, e.now, p.window);
            Covered(if e.account == account && granted then kept + [e.now] else kept, Stamps(after, account), e.now, p)
  {
    var cutoff := e.now - p.window;
    var granted := Grants(p, before, e.account, e.prefetch, e.now);
    if e.account != account {
      assert Stamps(AfterTake(before, e.account, granted, e.now, p.window), account)
          == Stamps(Undrained(before, cutoff), account);
      UndrainedSameLive(before, cutoff, e.now, account);
    } else {
      CoveredKept(kept, Stamps(before, account), granted, e.now, p);
    }
  }

  lemma {:induction false} CoveredKept(kept: seq<Time>, stamps: seq<Time>, granted: bool, now: Time, p: Policy)
    requires Covered(kept, stamps, now, p) && Ascending(stamps) && UpTo(stamps, now) && p.window > 0
    requires granted ==> |Live(stamps, now - p.window)| < p.limit
    ensures var live := Live(stamps, now - p.window);
            Covered(if granted then kept + [now] else kept, if granted then live + [now] else live, now, p)
  {
    var cutoff := now - p.window;
    LiveAgain(stamps, cutoff, cutoff);
    if granted {
      LiveIsSuffix(stamps, cutoff);
      LiveAppend(kept, now, cutoff);
      LiveAppend(Live(stamps, cutoff), now, cutoff);
      SpacedAfterGrant(kept, now, p.window, p.limit);
    }
  }

  lemma {:induction false} CoveredRefund(kept: seq<Time>, stamps: seq<Time>, latest: Time, p: Policy)
    requires Covered(kept, stamps, latest, p) && Ascending(stamps)
    ensures Covered(Pop(kept), Pop(stamps), latest, p)
  {
    LivePop(kept, latest - p.window);
    LivePop(stamps, latest - p.window);
    if |kept| >= 2 {
      InOrder(kept, |kept|, |kept| - 2, |kept| - 1);
    }
  }

  lemma {:induction false} CoveredAdd(kept: seq<Time>, before: Ledger, e: Event, latest: Time, account: string,
                                      p: Policy)
    requires e.Add? && Orderly(before, e.now) && e.now <= latest && p.window > 0 && p.reserve >= 0
    requires Covered(kept, Stamps(before, account), e.now, p)
    ensures var granted := Grants(p, before, e.account, e.prefetch, e.now);
            var after := AfterTake(before, e.account, granted, e.now, p.window);
            Orderly(after, latest)
            && Covered(if e.account == account && granted then kept + [e.now] else kept, Stamps(after, account), latest, p)
  {
    var granted := Grants(p, before, e.account, e.prefetch, e.now);
    var after := AfterTake(before, e.account, granted, e.now, p.window);
    AfterTakeOrderly(before, e.account, granted, e.now, p.window, e.now);
    OrderlyLater(after, e.now, latest);
    CoveredTake(kept, before, e, account, p);
    CoveredLater(if e.account == account && granted then kept + [e.now] else kept, Stamps(after, account), e.now, latest,
                 p);
  }

  lemma {:induction false} CoveredByStamps(p: Policy, run: seq<Event>, n: nat, latest: Time, account: string)
    requires n <= |run| && Sequential(p, run, n, latest) && p.window > 0 && p.reserve >= 0
    ensures Orderly(LedgerAfter(p, run, n), latest)
    ensures Covered(Counted(p, run, n, account), Stamps(LedgerAfter(p, run, n), account), latest, p)
  {
    if n > 0 {
      var before, kept := LedgerAfter(p, run, n - 1), Counted(p, run, n - 1, account);
      match run[n - 1]
      case Add(a, prefetch, now) =>
        CoveredByStamps(p, run, n - 1, now, account);
        CoveredAdd(kept, before, run[n - 1], latest, account, p);
      case GiveBack(a, charged) =>
        CoveredByStamps(p, run, n - 1, latest, account);
        AfterRefundOrderly(before, a, latest);
        if a == account {
          CoveredRefund(kept, Stamps(before, a), latest, p);
          WithoutNewest(kept, charged);
        }
    }
  }

  lemma {:induction false} WithoutNewest(s: seq<Time>, t: Time)
    requires |s| > 0 && s[|s| - 1] == t
    ensures Without(s, t) == Pop(s)
  {
  }

  function CountWithin(s: seq<Time>, n: nat, lo: Time, hi: Time): nat
    requires n <= |s|
  {
    if n == 0 then 0 else CountWithin(s, n - 1, lo, hi) + if lo < s[n - 1] <= hi then 1 else 0
  }

  /** No more entries lie in the window behind t than follow the first live one. */
  lemma {:induction false} CountAfterCut(s: seq<Time>, n: nat, lo: Time, t: Time)
    requires n <= |s| && AscendingTo(s, n) && (n > 0 ==> s[n - 1] <= t)
    ensures CountWithin(s, n, lo, t) == n - Cut(s, n, lo)
  {
    if n > 0 {
      CountAfterCut(s, n - 1, lo, t);
      var k := Cut(s, n - 1, lo);
      if k < n - 1 {
        InOrder(s, n, k, n - 1);
      }
    }
  }

  lemma {:induction false} CountSpaced(s: seq<Time>, n: nat, window: Time, limit: int, t: Time)
    requires n <= |s| && AscendingTo(s, n) && Spaced(s, window, limit) && limit >= 0
    ensures CountWithin(s, n, t - window, t) <= limit
  {
    if n > 0 {
      var lo := t - window;
      if s[n - 1] > t {
        CountSpaced(s, n - 1, window, limit, t);
      } else {
        CountAfterCut(s, n, lo, t);
        var k := Cut(s, n, lo);
        if k < n {
          assert s[k] + window > s[n - 1];
        }
      }
    }
  }

  /** Budget safety: over every run, whatever was given back, no rolling window holds more adds the service may be
      counting than the limit. */
  lemma {:induction false} BudgetSafety(p: Policy, run: seq<Event>, latest: Time, account: string, t: Time)
    requires Sequential(p, run, |run|, latest) && p.window > 0 && p.reserve >= 0 && p.limit >= 0
    ensures var adds := Counted(p, run, |run|, account); CountWithin(adds, |adds|, t - p.window, t) <= p.limit
  {
    CoveredByStamps(p, run, |run|, latest, account);
    var adds := Counted(p, run, |run|, account);
    CountSpaced(adds, |adds|, p.window, p.limit, t);
  }

  /** The reserve: over every run a prefetch is granted exactly while fewer than limit - reserve counted adds are
      live, and a viewer's add exactly while fewer than the limit are. */
  lemma {:induction false} GrantedExactly(p: Policy, run: seq<Event>, e: Event)
    requires e.Add? && Sequential(p, run, |run|, e.now) && p.window > 0 && p.reserve >= 0
    ensures Grants(p, LedgerAfter(p, run, |run|), e.account, e.prefetch, e.now)
            <==> |Live(Counted(p, run, |run|, e.account), e.now - p.window)|
                 < if e.prefetch then p.limit - p.reserve else p.limit
  {
    CoveredByStamps(p, run, |run|, e.now, e.account);
  }

  /** Why each give-back must follow its own add: refund pops the newest charge, so it removes exactly the add it is
      for if and only if that add was charged at the newest instant. */
  lemma {:induction false} RefundIsOwnExactlyWhenNewest(stamps: seq<Time>, own: Time)
    requires own in stamps
    ensures multiset(Pop(stamps)) == multiset(stamps) - multiset{own} <==> stamps[|stamps| - 1] == own
  {
    var newest := stamps[|stamps| - 1];
    assert stamps == Pop(stamps) + [newest];
    assert multiset(stamps) == multiset(Pop(stamps)) + multiset{newest};
    if newest != own {
      assert multiset(Pop(stamps))[own] == multiset(stamps)[own];
    }
  }

  const TWICE := Policy(11, 2, 0)
  const CROSSED: seq<Event> :=
    [Add("a", false, 1), Add("a", false, 2), GiveBack("a", 1), Add("a", false, 12), Add("a", false, 12)]

  /** What goes wrong otherwise. Under a limit of two in a window of 11, adds at 1 and 2 go out and the first is
      given back after the second was charged, which leaves the charge at 1. At 12 that one has drained, so two
      more are granted, and after this run the window behind 12 holds three adds the service may be counting. */
  lemma {:induction false} OutOfOrderRefundOvershoots()
    ensures var adds := Counted(TWICE, CROSSED, 5, "a");
            adds == [2, 12, 12] && CountWithin(adds, 3, 12 - TWICE.window, 12) == TWICE.limit + 1
  {
    Crossed(CROSSED, |CROSSED|);
    var s := [2, 12, 12];
    assert CountWithin(s, 0, 1, 12) == 0 && CountWithin(s, 1, 1, 12) == 1 && CountWithin(s, 2, 1, 12) == 2;
  }

  /** After n events the account holds these charges, and the service may be counting these adds. */
  ghost predicate Stands(run: seq<Event>, n: nat, stamps: seq<Time>, adds: seq<Time>)
    requires n <= |run|
  {
    Stamps(LedgerAfter(TWICE, run, n), "a") == stamps && Counted(TWICE, run, n, "a") == adds
  }

  lemma {:induction false} Crossed(run: seq<Event>, n: nat)
    requires n == 5 <= |run| && run[n - 5] == Add("a", false, 1) && run[n - 4] == Add("a", false, 2)
    requires run[n - 3] == GiveBack("a", 1) && run[n - 2] == run[n - 1] == Add("a", false, 12)
    ensures Stands(run, n, [12, 12], [2, 12, 12])
  {
    LiveOne(1, 1);
    LiveOne(1, -9);
    LiveOne(12, 1);
    FirstGivenBack(run, n - 2);
    AddGranted(run, n - 2, 12, [1], [], [2]);
    AddGranted(run, n - 1, 12, [12], [12], [2, 12]);
    assert [2] + [12] == [2, 12] && [2, 12] + [12] == [2, 12, 12] && [12] + [12] == [12, 12] && [] + [12] == [12];
  }

  lemma {:induction false} FirstGivenBack(run: seq<Event>, n: nat)
    requires n == 3 <= |run| && run[n - 3] == Add("a", false, 1) && run[n - 2] == Add("a", false, 2)
    requires run[n - 1] == GiveBack("a", 1)
    ensures Stands(run, n, [1], [2])
  {
    LiveOne(1, -9);
    assert Stands(run, n - 3, [], []);
    AddGranted(run, n - 3, 1, [], [], []);
    AddGranted(run, n - 2, 2, [1], [1], [1]);
    assert [] + [1] == [1] && [1] + [2] == [1, 2];
    GivenBack(run, n - 1, 1, 2);
  }

  lemma {:induction false} LiveOne(t: Time, cutoff: Time)
    ensures Live([t], cutoff) == if t > cutoff then [t] else []
  {
    assert LiveTo([t], 0, cutoff) == [];
  }

  /** The give-back of the older of two charges. */
  lemma {:induction false} GivenBack(run: seq<Event>, n: nat, own: Time, newer: Time)
    requires n < |run| && run[n] == GiveBack("a", own) && own != newer
    requires Stands(run, n, [own, newer], [own, newer])
    ensures Stands(run, n + 1, [own], [newer])
  {
    assert Pop([own, newer]) == [own] && Pop([own]) == [];
    assert Without([own], own) == [] && Without([own, newer], own) == [] + [newer];
  }

  /** An add that finds these charges, of which those are live, and is granted. */
  lemma {:induction false} AddGranted(run: seq<Event>, n: nat, now: Time, stamps: seq<Time>, live: seq<Time>,
                                      adds: seq<Time>)
    requires n < |run| && run[n] == Add("a", false, now) && Stands(run, n, stamps, adds)
    requires Live(stamps, now - 11) == live && |live| < 2
    ensures Stands(run, n + 1, live + [now], adds + [now])
  {
  }
}
