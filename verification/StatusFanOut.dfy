// Asking every store of a pool whether it is fetching a release, each within its slice of the time, and the order the
// stores are tried in (internal/scout/stores.go).
module StatusFanOut {
  import opened Common

  datatype Answer = Downloading | No | Unknown

  /** One store's turn: whether the caller had gone away by then, what the store answers, how long it takes, and whether
      the caller goes away meanwhile. */
  datatype Turn = Turn(gone: bool, answer: Answer, took: Time, left: bool)

  /** A store found, or the stores to ask again, by their place in the pool. */
  datatype Result = Found(store: nat) | NotFound(retry: seq<nat>)

  /** The slice of a store when `waiting` of them, it among them, are still to be asked. */
  function Share(now: Time, deadline: Time, waiting: nat): Time
    requires waiting > 0
  {
    (deadline - now) / waiting
  }

  predicate Expired(turn: Turn, now: Time, deadline: Option<Time>) {
    deadline.Some? && (now >= deadline.value || turn.gone)
  }

  /** The store answered "no", and nobody cut it short. */
  predicate Definite(turn: Turn, now: Time, deadline: Option<Time>, waiting: nat)
    requires waiting > 0
  {
    turn.answer.No? && !turn.left && (deadline.Some? ==> turn.took < Share(now, deadline.value, waiting))
  }

  function UpTo(i: nat, n: nat): seq<nat>
    requires i <= n
    decreases n
  {
    if i == n then [] else UpTo(i, n - 1) + [n - 1]
  }

  /** StatusDetail from store i on. */
  function Detail(turns: seq<Turn>, i: nat, now: Time, deadline: Option<Time>, unknown: seq<nat>): Result
    requires i <= |turns|
    decreases |turns| - i
  {
    if i == |turns| then NotFound(unknown)
    else if Expired(turns[i], now, deadline) then NotFound(unknown + UpTo(i, |turns|))
    else if turns[i].answer.Downloading? then Found(i)
    else
      var heard := Definite(turns[i], now, deadline, |turns| - i);
      Detail(turns, i + 1, now + turns[i].took, deadline, if heard then unknown else unknown + [i])
  }

  method StatusDetail(turns: seq<Turn>, start: Time, deadline: Option<Time>) returns (r: Result)
    ensures r == Detail(turns, 0, start, deadline, [])
  {
    var unknown: seq<nat>, now := [], start;
    for i := 0 to |turns|
      invariant Detail(turns, i, now, deadline, unknown) == Detail(turns, 0, start, deadline, [])
    {
      var turn := turns[i];
      var share: Option<Time> := None;
      if deadline.Some? {
        if now >= deadline.value || turn.gone {
          return NotFound(unknown + UpTo(i, |turns|));
        }
        share := Some((deadline.value - now) / (|turns| - i));
      }
      if turn.answer.Unknown?
         || (!turn.answer.Downloading? && (turn.left || (share.Some? && turn.took >= share.value))) {
        unknown := unknown + [i];
      }
      if turn.answer.Downloading? {
        return Found(i);
      }
      now := now + turn.took;
    }
    r := NotFound(unknown);
  }

  // ---- every store is accounted for ----

  /** When store k's turn comes. */
  function TurnAt(turns: seq<Turn>, k: nat, start: Time): Time
    requires k <= |turns|
  {
    if k == 0 then start else TurnAt(turns, k - 1, start) + turns[k - 1].took
  }

  /** At its turn the time was not over and the caller not gone; without a deadline neither matters. */
  predicate OnTime(turns: seq<Turn>, j: nat, start: Time, deadline: Option<Time>)
    requires j < |turns|
  {
    deadline.None? || (TurnAt(turns, j, start) < deadline.value && !turns[j].gone)
  }

  /** Store k was asked at all: every turn so far was on time. */
  ghost predicate Asked(turns: seq<Turn>, k: nat, start: Time, deadline: Option<Time>)
    requires k < |turns|
  {
    forall j :: 0 <= j <= k ==> OnTime(turns, j, start, deadline)
  }

  /** It was asked and said "no" within its slice, an even share of what was left, with the caller still there. */
  ghost predicate SaidNo(turns: seq<Turn>, k: nat, start: Time, deadline: Option<Time>)
    requires k < |turns|
  {
    Asked(turns, k, start, deadline) && turns[k].answer == No && !turns[k].left
    && (deadline.None? || turns[k].took < (deadline.value - TurnAt(turns, k, start)) / (|turns| - k))
  }

  /** Each of these once, in order. */
  ghost predicate Rising(s: seq<nat>, below: nat) {
    |s| == 0 || (s[|s| - 1] < below && Rising(s[..|s| - 1], s[|s| - 1]))
  }

  lemma {:induction false} RisingLater(s: seq<nat>, below: nat, higher: nat)
    requires Rising(s, below) && below <= higher
    ensures Rising(s, higher)
  {
  }

  lemma {:induction false} RisingRange(s: seq<nat>, i: nat, n: nat)
    requires Rising(s, i) && i <= n
    ensures Rising(s + UpTo(i, n), n)
    decreases n
  {
    if i < n {
      RisingRange(s, i, n - 1);
      var t := s + UpTo(i, n);
      assert t[..|t| - 1] == s + UpTo(i, n - 1);
    } else {
      assert s + [] == s;
    }
  }

  lemma {:induction false} InRange(i: nat, n: nat, k: nat)
    requires i <= n
    ensures k in UpTo(i, n) <==> i <= k < n
    decreases n
  {
    if i < n {
      InRange(i, n - 1, k);
    }
  }

  /** The stores to retry so far are those before i that did not say no. */
  ghost predicate Accounted(turns: seq<Turn>, i: nat, start: Time, deadline: Option<Time>, unknown: seq<nat>)
    requires i <= |turns|
  {
    Rising(unknown, i)
    && forall k :: 0 <= k < i ==> (k in unknown <==> !SaidNo(turns, k, start, deadline))
  }

  lemma {:induction false} InRising(s: seq<nat>, below: nat, k: nat)
    requires Rising(s, below) && k in s
    ensures k < below
    decreases |s|
  {
    var n := |s| - 1;
    assert s == s[..n] + [s[n]];
    if k != s[n] {
      InRising(s[..n], s[n], k);
    }
  }

  /** Out of time: everyone not yet asked is to be retried. */
  lemma {:induction false} RestAccounted(turns: seq<Turn>, i: nat, start: Time, deadline: Option<Time>,
                                         unknown: seq<nat>)
    requires i < |turns| && Accounted(turns, i, start, deadline, unknown)
    requires Expired(turns[i], TurnAt(turns, i, start), deadline)
    ensures Accounted(turns, |turns|, start, deadline, unknown + UpTo(i, |turns|))
  {
    RisingRange(unknown, i, |turns|);
    assert !OnTime(turns, i, start, deadline);
    forall k | 0 <= k < |turns| ensures k in unknown + UpTo(i, |turns|) <==> !SaidNo(turns, k, start, deadline) {
      InRange(i, |turns|, k);
      if k in unknown {
        InRising(unknown, i, k);
      }
    }
  }

  /** One more store asked, which is not downloading. */
  lemma {:induction false} OneAccounted(turns: seq<Turn>, i: nat, start: Time, deadline: Option<Time>,
                                        unknown: seq<nat>)
    requires i < |turns| && Accounted(turns, i, start, deadline, unknown) && Asked(turns, i, start, deadline)
    ensures var heard := Definite(turns[i], TurnAt(turns, i, start), deadline, |turns| - i);
            Accounted(turns, i + 1, start, deadline, if heard then unknown else unknown + [i])
  {
    var heard := Definite(turns[i], TurnAt(turns, i, start), deadline, |turns| - i);
    var next := if heard then unknown else unknown + [i];
    if heard {
      RisingLater(unknown, i, i + 1);
    } else {
      assert next[..|next| - 1] == unknown;
    }
    forall k | 0 <= k < i + 1 ensures k in next <==> !SaidNo(turns, k, start, deadline) {
      if k == i && k in unknown {
        InRising(unknown, i, k);
      }
    }
  }

  lemma {:induction false} AskedNext(turns: seq<Turn>, i: nat, start: Time, deadline: Option<Time>)
    requires i < |turns| && (i > 0 ==> Asked(turns, i - 1, start, deadline))
    ensures Asked(turns, i, start, deadline) <==> !Expired(turns[i], TurnAt(turns, i, start), deadline)
  {
    assert OnTime(turns, i, start, deadline) <==> !Expired(turns[i], TurnAt(turns, i, start), deadline);
  }

  lemma {:induction false} DetailAccounts(turns: seq<Turn>, i: nat, start: Time, deadline: Option<Time>,
                                          unknown: seq<nat>)
    requires i <= |turns| && Accounted(turns, i, start, deadline, unknown)
    requires i > 0 ==> Asked(turns, i - 1, start, deadline)
    ensures var r := Detail(turns, i, TurnAt(turns, i, start), deadline, unknown);
            r.NotFound? ==> Accounted(turns, |turns|, start, deadline, r.retry)
    decreases |turns| - i
  {
    if i < |turns| {
      if Expired(turns[i], TurnAt(turns, i, start), deadline) {
        RestAccounted(turns, i, start, deadline, unknown);
      } else if !turns[i].answer.Downloading? {
        AskedNext(turns, i, start, deadline);
        OneAccounted(turns, i, start, deadline, unknown);
        var heard := Definite(turns[i], TurnAt(turns, i, start), deadline, |turns| - i);
        DetailAccounts(turns, i + 1, start, deadline, if heard then unknown else unknown + [i]);
      }
    }
  }

  /** A negative result leaves no store out: each either was asked and said a definite "no", or is in the list to retry,
      once and in the pool's order. So too when the time runs out or the caller goes away part of the way. */
  lemma {:induction false} EveryStoreAccountedFor(turns: seq<Turn>, start: Time, deadline: Option<Time>)
    ensures var r := Detail(turns, 0, start, deadline, []);
            r.NotFound? ==>
              Rising(r.retry, |turns|)
              && forall k :: 0 <= k < |turns| ==> (k in r.retry <==> !SaidNo(turns, k, start, deadline))
  {
    DetailAccounts(turns, 0, start, deadline, []);
  }

  lemma {:induction false} FirstFrom(turns: seq<Turn>, i: nat, k: nat, start: Time, deadline: Option<Time>)
    requires i < |turns| && (forall j :: 0 <= j < i ==> !turns[j].answer.Downloading?)
    ensures !Asked(turns, i, start, deadline) ==> k < i || !FirstDownloading(turns, k, start, deadline)
    ensures Asked(turns, i, start, deadline) && turns[i].answer.Downloading? ==>
              (FirstDownloading(turns, k, start, deadline) <==> k == i)
    ensures !turns[i].answer.Downloading? ==> k != i || !FirstDownloading(turns, k, start, deadline)
  {
    if k >= i && FirstDownloading(turns, k, start, deadline) {
      forall j | 0 <= j <= i ensures OnTime(turns, j, start, deadline) {
      }
    }
  }

  lemma {:induction false} DetailFinds(turns: seq<Turn>, i: nat, k: nat, start: Time, deadline: Option<Time>,
                                       unknown: seq<nat>)
    requires i <= |turns| && (forall j :: 0 <= j < i ==> !turns[j].answer.Downloading?)
    requires i > 0 ==> Asked(turns, i - 1, start, deadline)
    ensures Detail(turns, i, TurnAt(turns, i, start), deadline, unknown) == Found(k)
            <==> i <= k < |turns| && FirstDownloading(turns, k, start, deadline)
    decreases |turns| - i
  {
    if i < |turns| {
      AskedNext(turns, i, start, deadline);
      FirstFrom(turns, i, k, start, deadline);
      if Asked(turns, i, start, deadline) && !turns[i].answer.Downloading? {
        var heard := Definite(turns[i], TurnAt(turns, i, start), deadline, |turns| - i);
        DetailFinds(turns, i + 1, k, start, deadline, if heard then unknown else unknown + [i]);
      }
    }
  }

  /** Store k was asked and is downloading, and none before it is. */
  ghost predicate FirstDownloading(turns: seq<Turn>, k: nat, start: Time, deadline: Option<Time>) {
    k < |turns| && Asked(turns, k, start, deadline) && turns[k].answer == Downloading
    && forall j :: 0 <= j < k ==> turns[j].answer != Downloading
  }

  /** A positive result names a store if and only if that is the first, of those asked in the pool's order, that is
      downloading. */
  lemma {:induction false} FindsTheFirst(turns: seq<Turn>, start: Time, deadline: Option<Time>, k: nat)
    ensures Detail(turns, 0, start, deadline, []) == Found(k) <==> FirstDownloading(turns, k, start, deadline)
  {
    DetailFinds(turns, 0, k, start, deadline, []);
  }

  // ---- fair slices ----

  lemma {:induction false} Sign(a: int, m: int)
    requires m > 0
    ensures a <= 0 ==> a * m <= 0
  {
  }

  lemma {:induction false} AtLeast(total: int, q: int, m: int)
    requires m > 0 && total >= q * m
    ensures total / m >= q
  {
    var d := total / m;
    assert total == d * m + total % m;
    assert (d - q + 1) * m == d * m - q * m + m;
    Sign(d - q + 1, m);
  }

  /** What a store that keeps to its slice leaves is an even share for each of the m others. */
  lemma {:induction false} LeavesEnough(left: Time, took: Time, m: nat)
    requires m > 0 && took <= left / (m + 1)
    ensures (left - took) / m >= left / (m + 1)
  {
    var q := left / (m + 1);
    assert left == q * (m + 1) + left % (m + 1);
    assert q * (m + 1) == q * m + q;
    AtLeast(left - took, q, m);
  }

  predicate KeepsToSlice(turns: seq<Turn>, j: nat, start: Time, deadline: Time)
    requires j < |turns|
  {
    turns[j].took <= Share(TurnAt(turns, j, start), deadline, |turns| - j)
  }

  /** No store that keeps to its slice takes from another: every store's slice is at least an even share of the whole. */
  lemma {:induction false} SlicesAreFair(turns: seq<Turn>, k: nat, start: Time, deadline: Time)
    requires k < |turns| && start <= deadline
    requires forall j :: 0 <= j < k ==> KeepsToSlice(turns, j, start, deadline)
    ensures Share(TurnAt(turns, k, start), deadline, |turns| - k) >= Share(start, deadline, |turns|)
  {
    if k > 0 {
      SlicesAreFair(turns, k - 1, start, deadline);
      assert KeepsToSlice(turns, k - 1, start, deadline);
      LeavesEnough(deadline - TurnAt(turns, k - 1, start), turns[k - 1].took, |turns| - k);
    }
  }

  // ---- the order stores are tried in ----

  type Service = string

  datatype Store = Store(service: Service, account: string)

  /** The preferred services, each once. */
  function Once(preferred: seq<Service>, n: nat): seq<Service>
    requires n <= |preferred|
  {
    if n == 0 then []
    else if preferred[n - 1] in Once(preferred, n - 1) then Once(preferred, n - 1)
    else Once(preferred, n - 1) + [preferred[n - 1]]
  }

  predicate NewAt(services: seq<Service>, i: int)
    requires 0 <= i < |services|
  {
    services[i] !in services[..i]
  }

  ghost predicate Distinct(services: seq<Service>) {
    forall i :: 0 <= i < |services| ==> NewAt(services, i)
  }

  /** The stores of one service, in configured order; and those of none of these. */
  function Of(stores: seq<Store>, n: nat, service: Service): seq<Store>
    requires n <= |stores|
  {
    if n == 0 then []
    else if stores[n - 1].service == service then Of(stores, n - 1, service) + [stores[n - 1]]
    else Of(stores, n - 1, service)
  }

  function Others(stores: seq<Store>, n: nat, services: seq<Service>): seq<Store>
    requires n <= |stores|
  {
    if n == 0 then []
    else if stores[n - 1].service in services then Others(stores, n - 1, services)
    else Others(stores, n - 1, services) + [stores[n - 1]]
  }

  function Grouped(stores: seq<Store>, services: seq<Service>, k: nat): seq<Store>
    requires k <= |services|
  {
    if k == 0 then [] else Grouped(stores, services, k - 1) + Of(stores, |stores|, services[k - 1])
  }

  function Ordered(stores: seq<Store>, preferred: seq<Service>): seq<Store> {
    var order := Once(preferred, |preferred|);
    Grouped(stores, order, |order|) + Others(stores, |stores|, order)
  }

  lemma {:induction false} NoneOther(stores: seq<Store>, n: nat)
    requires n <= |stores|
    ensures Others(stores, n, []) == stores[..n]
  {
    if n > 0 {
      NoneOther(stores, n - 1);
      assert stores[..n] == stores[..n - 1] + [stores[n - 1]];
    }
  }

  method Order(stores: seq<Store>, preferred: seq<Service>) returns (out: seq<Store>)
    ensures out == Ordered(stores, preferred)
  {
    if |preferred| == 0 {
      NoneOther(stores, |stores|);
      return stores;
    }
    var order: seq<Service> := [];
    for i := 0 to |preferred|
      invariant order == Once(preferred, i)
    {
      if preferred[i] !in order {
        order := order + [preferred[i]];
      }
    }
    out := [];
    for k := 0 to |order|
      invariant out == Grouped(stores, order, k)
    {
      ghost var before := out;
      for i := 0 to |stores|
        invariant out == before + Of(stores, i, order[k])
      {
        if stores[i].service == order[k] {
          out := out + [stores[i]];
        }
      }
    }
    ghost var before := out;
    for i := 0 to |stores|
      invariant out == before + Others(stores, i, order)
    {
      if stores[i].service !in order {
        out := out + [stores[i]];
      }
    }
  }

  lemma {:induction false} Appended(s: seq<Store>, x: Store)
    ensures multiset(s + [x]) == multiset(s) + multiset{x}
  {
  }

  lemma {:induction false} OthersSplit(stores: seq<Store>, n: nat, services: seq<Service>, more: seq<Service>,
                                       service: Service)
    requires n <= |stores| && service !in services && more == services + [service]
    ensures multiset(Others(stores, n, services)) == multiset(Of(stores, n, service)) + multiset(Others(stores, n, more))
  {
    if n > 0 {
      OthersSplit(stores, n - 1, services, more, service);
      var x := stores[n - 1];
      var a, b, c := Others(stores, n - 1, services), Of(stores, n - 1, service), Others(stores, n - 1, more);
      assert x.service in more <==> x.service in services || x.service == service;
      Appended(a, x);
      Appended(b, x);
      Appended(c, x);
    }
  }

  lemma {:induction false} OneGroupKeeps(stores: seq<Store>, grouped: seq<Store>, group: seq<Store>,
                                         others: seq<Store>, fewer: seq<Store>)
    requires multiset(grouped) + multiset(others) == multiset(stores)
    requires multiset(others) == multiset(group) + multiset(fewer)
    ensures multiset(grouped + group) + multiset(fewer) == multiset(stores)
  {
    assert multiset(grouped + group) == multiset(grouped) + multiset(group);
  }

  lemma {:induction false} GroupedKeeps(stores: seq<Store>, services: seq<Service>, k: nat)
    requires k <= |services| && Distinct(services)
    ensures multiset(Grouped(stores, services, k)) + multiset(Others(stores, |stores|, services[..k]))
         == multiset(stores)
  {
    if k == 0 {
      NoneOther(stores, |stores|);
      assert stores[..|stores|] == stores;
      assert services[..0] == [];
    } else {
      var fewer, more, service := services[..k - 1], services[..k], services[k - 1];
      GroupedKeeps(stores, services, k - 1);
      assert NewAt(services, k - 1);
      assert more == fewer + [service];
      OthersSplit(stores, |stores|, fewer, more, service);
      OneGroupKeeps(stores, Grouped(stores, services, k - 1), Of(stores, |stores|, service),
                    Others(stores, |stores|, fewer), Others(stores, |stores|, more));
    }
  }

  lemma {:induction false} DistinctPlus(services: seq<Service>, s: Service)
    requires Distinct(services) && s !in services
    ensures Distinct(services + [s])
  {
    forall i | 0 <= i <= |services| ensures NewAt(services + [s], i) {
      if i < |services| {
        assert NewAt(services, i);
        assert (services + [s])[..i] == services[..i];
      } else {
        assert (services + [s])[..i] == services;
      }
    }
  }

  lemma {:induction false} OnceEach(preferred: seq<Service>, n: nat)
    requires n <= |preferred|
    ensures Distinct(Once(preferred, n))
  {
    if n > 0 {
      OnceEach(preferred, n - 1);
      if preferred[n - 1] !in Once(preferred, n - 1) {
        DistinctPlus(Once(preferred, n - 1), preferred[n - 1]);
      }
    }
  }

  /** Reordering drops no store and adds none: every store still gets its turn, once. */
  lemma {:induction false} OrderedIsPermutation(stores: seq<Store>, preferred: seq<Service>)
    ensures multiset(Ordered(stores, preferred)) == multiset(stores)
  {
    var order := Once(preferred, |preferred|);
    OnceEach(preferred, |preferred|);
    GroupedKeeps(stores, order, |order|);
    assert order[..|order|] == order;
  }

  /** Nothing comes before a preferred store but stores of the services preferred to it, and its own. */
  ghost predicate InTurn(out: seq<Store>, order: seq<Service>, j: int)
    requires 0 <= j < |out|
  {
    forall k :: 0 <= k < |order| && order[k] == out[j].service ==>
      forall i :: 0 <= i < j ==> out[i].service in order[..k + 1]
  }

  lemma {:induction false} OfService(stores: seq<Store>, n: nat, service: Service)
    requires n <= |stores|
    ensures forall x <- Of(stores, n, service) :: x.service == service
  {
    if n > 0 {
      OfService(stores, n - 1, service);
    }
  }

  lemma {:induction false} NoneOfThese(stores: seq<Store>, n: nat, services: seq<Service>)
    requires n <= |stores|
    ensures forall x <- Others(stores, n, services) :: x.service !in services
  {
    if n > 0 {
      NoneOfThese(stores, n - 1, services);
    }
  }

  lemma {:induction false} GroupInTurn(out: seq<Store>, group: seq<Store>, order: seq<Service>, k: nat)
    requires k < |order| && Distinct(order)
    requires forall x <- out :: x.service in order[..k]
    requires forall x <- group :: x.service == order[k]
    requires forall j :: 0 <= j < |out| ==> InTurn(out, order, j)
    ensures forall x <- out + group :: x.service in order[..k + 1]
    ensures forall j :: 0 <= j < |out + group| ==> InTurn(out + group, order, j)
  {
    var all := out + group;
    assert order[..k + 1] == order[..k] + [order[k]];
    forall j | 0 <= j < |all| ensures InTurn(all, order, j) {
      forall m | 0 <= m < |order| && order[m] == all[j].service
        ensures forall i :: 0 <= i < j ==> all[i].service in order[..m + 1]
      {
        if j < |out| {
          assert InTurn(out, order, j);
        } else {
          assert all[j] in group;
          SameIndex(order, m, k);
          assert forall i :: 0 <= i < j ==> all[i] in out || all[i] in group;
        }
      }
    }
  }

  lemma {:induction false} InPrefix(order: seq<Service>, i: nat, k: nat)
    requires i < |order| && k < |order|
    ensures i < k ==> order[i] in order[..k]
  {
    if i < k {
      assert order[..k][i] == order[i];
    }
  }

  lemma {:induction false} SameIndex(order: seq<Service>, m: nat, k: nat)
    requires m < |order| && k < |order| && order[m] == order[k] && Distinct(order)
    ensures m == k
  {
    InPrefix(order, m, k);
    InPrefix(order, k, m);
    assert NewAt(order, m) && NewAt(order, k);
  }

  lemma {:induction false} GroupedInTurn(stores: seq<Store>, order: seq<Service>, k: nat)
    requires k <= |order| && Distinct(order)
    ensures forall x <- Grouped(stores, order, k) :: x.service in order[..k]
    ensures forall j :: 0 <= j < |Grouped(stores, order, k)| ==> InTurn(Grouped(stores, order, k), order, j)
  {
    if k > 0 {
      GroupedInTurn(stores, order, k - 1);
      OfService(stores, |stores|, order[k - 1]);
      GroupInTurn(Grouped(stores, order, k - 1), Of(stores, |stores|, order[k - 1]), order, k - 1);
    }
  }

  lemma {:induction false} OnceStarts(preferred: seq<Service>, m: nat, n: nat)
    requires m <= n <= |preferred|
    ensures |Once(preferred, m)| <= |Once(preferred, n)|
            && Once(preferred, n)[..|Once(preferred, m)|] == Once(preferred, m)
  {
    if m < n {
      OnceStarts(preferred, m, n - 1);
    }
  }

  /** What comes before a store in turn is of the services named no later than its own. */
  lemma {:induction false} NamedNoLater(out: seq<Store>, preferred: seq<Service>, j: nat, m: nat)
    requires j < |out| && InTurn(out, Once(preferred, |preferred|), j)
    requires m < |preferred| && preferred[m] == out[j].service
    ensures forall i :: 0 <= i < j ==> out[i].service in preferred[..m + 1]
  {
    var order, start := Once(preferred, |preferred|), Once(preferred, m + 1);
    OnceStarts(preferred, m + 1, |preferred|);
    OnceHolds(preferred, m + 1);
    assert preferred[..m + 1][m] == preferred[m];
    var k :| 0 <= k < |start| && start[k] == preferred[m];
    assert order[..|start|][k] == order[k];
    assert order[..k + 1] == start[..k + 1];
  }

  /** The caller's order is kept: before a store of a preferred service come only stores of the services named before
      it, and its own. */
  lemma {:induction false} PreferredComeFirst(stores: seq<Store>, preferred: seq<Service>, j: nat)
    requires j < |Ordered(stores, preferred)|
    ensures InTurn(Ordered(stores, preferred), preferred, j)
  {
    OnceInTurn(stores, preferred, j);
    forall m: nat | m < |preferred| && preferred[m] == Ordered(stores, preferred)[j].service
      ensures forall i :: 0 <= i < j ==> Ordered(stores, preferred)[i].service in preferred[..m + 1]
    {
      NamedNoLater(Ordered(stores, preferred), preferred, j, m);
    }
  }

  lemma {:induction false} OnceInTurn(stores: seq<Store>, preferred: seq<Service>, j: nat)
    requires j < |Ordered(stores, preferred)|
    ensures InTurn(Ordered(stores, preferred), Once(preferred, |preferred|), j)
  {
    var order := Once(preferred, |preferred|);
    var grouped, others := Grouped(stores, order, |order|), Others(stores, |stores|, order);
    OnceEach(preferred, |preferred|);
    GroupedInTurn(stores, order, |order|);
    NoneOfThese(stores, |stores|, order);
    if j < |grouped| {
      assert InTurn(grouped, order, j);
    } else {
      assert Ordered(stores, preferred)[j] in others;
    }
  }

  lemma {:induction false} OfPrefix(stores: seq<Store>, more: seq<Store>, n: nat, service: Service)
    requires n <= |stores| && n <= |more| && forall i :: 0 <= i < n ==> stores[i] == more[i]
    ensures Of(stores, n, service) == Of(more, n, service)
  {
    if n > 0 {
      OfPrefix(stores, more, n - 1, service);
    }
  }

  /** The stores of a service in two lists, one after the other. */
  lemma {:induction false} OfBoth(a: seq<Store>, b: seq<Store>, n: nat, service: Service)
    requires n <= |b|
    ensures Of(a + b, |a| + n, service) == Of(a, |a|, service) + Of(b, n, service)
  {
    if n > 0 {
      OfBoth(a, b, n - 1, service);
      assert (a + b)[|a| + n - 1] == b[n - 1];
    } else {
      OfPrefix(a + b, a, |a|, service);
    }
  }

  lemma {:induction false} OfAppend(a: seq<Store>, x: Store, service: Service)
    ensures Of(a + [x], |a| + 1, service) == Of(a, |a|, service) + if x.service == service then [x] else []
  {
    OfBoth(a, [x], 1, service);
    assert Of([x], 0, service) == [];
  }

  lemma {:induction false} OfOf(stores: seq<Store>, n: nat, group: Service, service: Service)
    requires n <= |stores|
    ensures var of := Of(stores, n, group);
            Of(of, |of|, service) == if service == group then of else []
  {
    if n > 0 {
      OfOf(stores, n - 1, group, service);
      if stores[n - 1].service == group {
        OfAppend(Of(stores, n - 1, group), stores[n - 1], service);
      }
    }
  }

  lemma {:induction false} OfOthers(stores: seq<Store>, n: nat, services: seq<Service>, service: Service)
    requires n <= |stores|
    ensures var others := Others(stores, n, services);
            Of(others, |others|, service) == if service in services then [] else Of(stores, n, service)
  {
    if n > 0 {
      OfOthers(stores, n - 1, services, service);
      if stores[n - 1].service !in services {
        OfAppend(Others(stores, n - 1, services), stores[n - 1], service);
      }
    }
  }

  lemma {:induction false} OfTwo(a: seq<Store>, b: seq<Store>, service: Service)
    ensures Of(a + b, |a + b|, service) == Of(a, |a|, service) + Of(b, |b|, service)
  {
    OfBoth(a, b, |b|, service);
  }

  lemma {:induction false} OneMoreGroup(before: seq<Store>, of: seq<Store>, group: seq<Store>, service: Service,
                                        had: bool, has: bool)
    requires Of(before, |before|, service) == (if had then of else []) && !(had && has)
    requires Of(group, |group|, service) == if has then of else []
    ensures Of(before + group, |before + group|, service) == if had || has then of else []
  {
    OfTwo(before, group, service);
  }

  lemma {:induction false} OfGrouped(stores: seq<Store>, services: seq<Service>, k: nat, service: Service)
    requires k <= |services| && Distinct(services)
    ensures var grouped := Grouped(stores, services, k);
            Of(grouped, |grouped|, service) == if service in services[..k] then Of(stores, |stores|, service) else []
  {
    if k > 0 {
      OfGrouped(stores, services, k - 1, service);
      OfOf(stores, |stores|, services[k - 1], service);
      AmongNext(services, k, service);
      OneMoreGroup(Grouped(stores, services, k - 1), Of(stores, |stores|, service),
                   Of(stores, |stores|, services[k - 1]), service, service in services[..k - 1],
                   service == services[k - 1]);
    }
  }

  lemma {:induction false} AmongNext(services: seq<Service>, k: nat, service: Service)
    requires 0 < k <= |services| && Distinct(services)
    ensures service in services[..k] <==> service in services[..k - 1] || service == services[k - 1]
    ensures services[k - 1] !in services[..k - 1]
  {
    assert NewAt(services, k - 1);
    assert services[..k] == services[..k - 1] + [services[k - 1]];
  }

  /** Within a service the configured order stands. */
  lemma {:induction false} ServicesStayInOrder(stores: seq<Store>, preferred: seq<Service>, service: Service)
    ensures var ordered := Ordered(stores, preferred);
            Of(ordered, |ordered|, service) == Of(stores, |stores|, service)
  {
    var order := Once(preferred, |preferred|);
    var grouped, others := Grouped(stores, order, |order|), Others(stores, |stores|, order);
    OnceEach(preferred, |preferred|);
    OfGrouped(stores, order, |order|, service);
    OfOthers(stores, |stores|, order, service);
    OfBoth(grouped, others, |others|, service);
    assert order[..|order|] == order;
  }

  /** And so does that of all the stores nobody prefers, which come last. */
  lemma {:induction false} TheRestStayInOrder(stores: seq<Store>, preferred: seq<Service>)
    ensures var rest := Others(stores, |stores|, Once(preferred, |preferred|));
            |rest| <= |Ordered(stores, preferred)|
            && Ordered(stores, preferred)[|Ordered(stores, preferred)| - |rest|..] == rest
    ensures forall s: Service :: s in preferred <==> s in Once(preferred, |preferred|)
  {
    OnceHolds(preferred, |preferred|);
    assert preferred[..|preferred|] == preferred;
  }

  lemma {:induction false} OnceHolds(preferred: seq<Service>, n: nat)
    requires n <= |preferred|
    ensures forall s: Service :: s in preferred[..n] <==> s in Once(preferred, n)
  {
    if n > 0 {
      OnceHolds(preferred, n - 1);
      assert preferred[..n] == preferred[..n - 1] + [preferred[n - 1]];
    }
  }
}
