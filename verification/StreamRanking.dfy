// Filtering, ordering and capping a list of releases (internal/scout/rank.go).
module StreamRanking {
  import opened Common
  import opened Scores

  datatype Bucket = B2160 | B1080 | B720 | B480

  /** A release of the scrape: what is known of it and what the patterns and filters find in its title. */
  datatype Stream = Stream(release: Release, streams: Streams, seeders: Option<int>, cacheKnown: bool, excluded: bool,
                           yearMismatch: bool, hasYear: bool, sharesToken: bool, bucket: Option<Bucket>, hdr: bool,
                           otherShow: bool, otherEpisode: bool)

  /** What a request asks for. `year` and `tokens` tell whether the title's year and words are known, `episode` whether
      an episode was asked for and `show` whether its show's words are known. */
  datatype Filters = Filters(excludeCam: bool, exclude: bool, year: bool, tokens: bool, resolutions: set<Bucket>,
                             prefer: Option<Bucket>, hdrOnly: bool, minSeeders: Option<int>, maxSizeGb: Option<int>,
                             cachedOnly: bool, cap: nat, browser: Option<Browser>, episode: bool, show: bool)

  datatype Reason =
    | Cam | ExcludeRegex | YearMismatch | TitleMismatch | Resolution | HdrOnly | MinSeeders | MaxSizeGb | CachedOnly

  function SizeOf(s: Stream): int {
    if s.release.size.Some? then s.release.size.value else 0
  }

  /** Why a release is dropped, if it is: the first filter it fails. */
  function Dropped(s: Stream, f: Filters): Option<Reason> {
    if f.excludeCam && s.release.title.junk then Some(Cam)
    else if f.exclude && s.excluded then Some(ExcludeRegex)
    else if f.year && s.yearMismatch then Some(YearMismatch)
    else if f.tokens && !s.hasYear && !s.sharesToken then Some(TitleMismatch)
    else if f.resolutions != {} && s.bucket.Some? && s.bucket.value !in f.resolutions then Some(Resolution)
    else if f.hdrOnly && !s.hdr then Some(HdrOnly)
    else if f.minSeeders.Some? && s.seeders.Some? && s.seeders.value < f.minSeeders.value then Some(MinSeeders)
    else if f.maxSizeGb.Some? && SizeOf(s) > f.maxSizeGb.value * GIB then Some(MaxSizeGb)
    else if f.cachedOnly && !s.release.cached && s.cacheKnown then Some(CachedOnly)
    else None
  }

  function ListedAs(s: Stream, f: Filters): Listed {
    Listed(s.release,
           if f.browser.Some? then Cost(f.browser.value, s.streams) else 0,
           f.prefer.Some? && s.bucket.Some? && s.bucket != f.prefer,
           f.episode && ((f.show && s.otherShow) || s.otherEpisode))
  }

  function Points(s: Stream, f: Filters): int {
    Total(ListedAs(s, f))
  }

  function Seeders(s: Stream): int {
    if s.seeders.Some? then s.seeders.value else 0
  }

  // ---- the order ----

  /** Release i goes before release j: by score, then seeders, then the order they came in. */
  predicate Better(all: seq<Stream>, f: Filters, i: nat, j: nat)
    requires i < |all| && j < |all|
  {
    var x, y := Points(all[i], f), Points(all[j], f);
    var m, n := Seeders(all[i]), Seeders(all[j]);
    x > y || (x == y && (m > n || (m == n && i < j)))
  }

  predicate Places(all: seq<Stream>, order: seq<nat>) {
    forall p :: 0 <= p < |order| ==> order[p] < |all|
  }

  /** A release put in its place among the first n of an order. */
  function Inserted(all: seq<Stream>, f: Filters, order: seq<nat>, n: nat, i: nat): (r: seq<nat>)
    requires n <= |order| && Places(all, order) && i < |all|
    ensures Places(all, r) && |r| == n + 1
  {
    if n == 0 then [i]
    else if Better(all, f, order[n - 1], i) then order[..n] + [i]
    else Inserted(all, f, order, n - 1, i) + [order[n - 1]]
  }

  /** What the filters say of each release. */
  function Verdicts(all: seq<Stream>, f: Filters): (v: seq<Option<Reason>>)
    ensures |v| == |all|
  {
    seq(|all|, i requires 0 <= i < |all| => Dropped(all[i], f))
  }

  /** The releases among the first n that no filter drops. */
  function Survivors(v: seq<Option<Reason>>, n: nat): (kept: seq<nat>)
    requires n <= |v|
    ensures forall p :: 0 <= p < |kept| ==> kept[p] < n
  {
    if n == 0 then []
    else if v[n - 1].Some? then Survivors(v, n - 1)
    else Survivors(v, n - 1) + [n - 1]
  }

  /** The first n of them, best first: the stable sort. */
  function Sorted(all: seq<Stream>, f: Filters, kept: seq<nat>, n: nat): (order: seq<nat>)
    requires Places(all, kept) && n <= |kept|
    ensures Places(all, order) && |order| == n
  {
    if n == 0 then []
    else Inserted(all, f, Sorted(all, f, kept, n - 1), n - 1, kept[n - 1])
  }

  function One(yes: bool): nat { if yes then 1 else 0 }

  function Drops(v: seq<Option<Reason>>, n: nat, why: Reason): nat
    requires n <= |v|
  {
    if n == 0 then 0 else Drops(v, n - 1, why) + One(v[n - 1] == Some(why))
  }

  /** Everything before place q is better than what stands there. */
  ghost predicate Leads(all: seq<Stream>, f: Filters, order: seq<nat>, q: int)
    requires Places(all, order) && 0 <= q < |order|
  {
    forall p :: 0 <= p < q ==> Better(all, f, order[p], order[q])
  }

  ghost predicate InOrder(all: seq<Stream>, f: Filters, order: seq<nat>)
    requires Places(all, order)
  {
    forall q :: 0 <= q < |order| ==> Leads(all, f, order, q)
  }

  lemma {:induction false} BetterIsTotal(all: seq<Stream>, f: Filters, i: nat, j: nat, k: nat)
    requires i < |all| && j < |all| && k < |all|
    ensures !Better(all, f, i, i)
    ensures i != j ==> Better(all, f, i, j) || Better(all, f, j, i)
    ensures Better(all, f, i, j) && Better(all, f, j, k) ==> Better(all, f, i, k)
  {
  }

  lemma {:induction false} InsertedMembers(all: seq<Stream>, f: Filters, order: seq<nat>, n: nat, i: nat, x: nat)
    requires n <= |order| && Places(all, order) && i < |all|
    ensures x in Inserted(all, f, order, n, i) <==> x == i || x in order[..n]
  {
    if n > 0 {
      assert order[..n] == order[..n - 1] + [order[n - 1]];
      InsertedMembers(all, f, order, n - 1, i, x);
    }
  }

  /** One more at the end, behind everything. */
  lemma {:induction false} AppendedInOrder(all: seq<Stream>, f: Filters, order: seq<nat>, i: nat)
    requires Places(all, order) && InOrder(all, f, order) && i < |all|
    requires forall p :: 0 <= p < |order| ==> Better(all, f, order[p], i)
    ensures InOrder(all, f, order + [i])
  {
    var r := order + [i];
    forall q | 0 <= q < |r| ensures Leads(all, f, r, q) {
      assert q < |order| ==> Leads(all, f, order, q);
    }
  }

  /** Better than the last of them, so behind all: and a start of an order is one. */
  lemma {:induction false} BehindAll(all: seq<Stream>, f: Filters, order: seq<nat>, n: nat, i: nat)
    requires 0 < n <= |order| && Places(all, order) && InOrder(all, f, order) && i < |all|
    requires Better(all, f, order[n - 1], i)
    ensures InOrder(all, f, order[..n] + [i])
  {
    forall q | 0 <= q < n ensures Leads(all, f, order[..n], q) {
      assert Leads(all, f, order, q);
    }
    assert Leads(all, f, order, n - 1);
    forall p | 0 <= p < n ensures Better(all, f, order[..n][p], i) {
      BetterIsTotal(all, f, order[p], order[n - 1], i);
    }
    AppendedInOrder(all, f, order[..n], i);
  }

  lemma {:induction false} LastBehind(all: seq<Stream>, f: Filters, order: seq<nat>, n: nat, i: nat)
    requires 0 < n <= |order| && Places(all, order) && InOrder(all, f, order) && i < |all|
    requires Better(all, f, i, order[n - 1]) && InOrder(all, f, Inserted(all, f, order, n - 1, i))
    ensures InOrder(all, f, Inserted(all, f, order, n - 1, i) + [order[n - 1]])
  {
    var last, before := order[n - 1], Inserted(all, f, order, n - 1, i);
    assert Leads(all, f, order, n - 1);
    forall p | 0 <= p < n ensures Better(all, f, before[p], last) {
      assert before[p] in before;
      InsertedMembers(all, f, order, n - 1, i, before[p]);
    }
    AppendedInOrder(all, f, before, last);
  }

  lemma {:induction false} InsertedInOrder(all: seq<Stream>, f: Filters, order: seq<nat>, n: nat, i: nat)
    requires n <= |order| && Places(all, order) && InOrder(all, f, order) && i < |all| && i !in order
    ensures InOrder(all, f, Inserted(all, f, order, n, i))
  {
    if n > 0 && Better(all, f, order[n - 1], i) {
      BehindAll(all, f, order, n, i);
    } else if n > 0 {
      InsertedInOrder(all, f, order, n - 1, i);
      BetterIsTotal(all, f, i, order[n - 1], i);
      LastBehind(all, f, order, n, i);
    }
  }

  lemma {:induction false} SurvivorsAre(v: seq<Option<Reason>>, n: nat, i: nat)
    requires n <= |v|
    ensures i in Survivors(v, n) <==> i < n && v[i].None?
  {
    if n > 0 {
      SurvivorsAre(v, n - 1, i);
    }
  }

  /** Each of the first n stands after every one before it. */
  ghost predicate Climbing(kept: seq<nat>, n: nat)
    requires n <= |kept|
  {
    n == 0 || (Climbing(kept, n - 1) && kept[n - 1] !in kept[..n - 1])
  }

  lemma {:induction false} SurvivorsClimb(v: seq<Option<Reason>>, n: nat)
    requires n <= |v|
    ensures var kept := Survivors(v, n); Climbing(kept, |kept|)
  {
    if n > 0 {
      SurvivorsClimb(v, n - 1);
      var before, kept := Survivors(v, n - 1), Survivors(v, n);
      if v[n - 1].None? {
        ClimbingSame(before, kept, |before|);
        SurvivorsAre(v, n - 1, n - 1);
        assert kept[..|kept| - 1] == before;
      }
    }
  }

  lemma {:induction false} ClimbingSame(a: seq<nat>, b: seq<nat>, n: nat)
    requires n <= |a| && n <= |b| && Climbing(a, n) && a[..n] == b[..n]
    ensures Climbing(b, n)
  {
    if n > 0 {
      assert a[..n - 1] == a[..n][..n - 1] && b[..n - 1] == b[..n][..n - 1];
      assert a[n - 1] == a[..n][n - 1] && b[n - 1] == b[..n][n - 1];
      ClimbingSame(a, b, n - 1);
    }
  }

  /** The order holds exactly the releases to be sorted, and nothing stands behind a worse one. */
  lemma {:induction false} SortedHolds(all: seq<Stream>, f: Filters, kept: seq<nat>, n: nat)
    requires Places(all, kept) && n <= |kept| && Climbing(kept, n)
    ensures var order := Sorted(all, f, kept, n);
            InOrder(all, f, order) && forall i: nat :: i in order <==> i in kept[..n]
  {
    SortedInOrder(all, f, kept, n);
    forall i: nat ensures i in Sorted(all, f, kept, n) <==> i in kept[..n] {
      SortedMembers(all, f, kept, n, i);
    }
  }

  lemma {:induction false} SortedMembers(all: seq<Stream>, f: Filters, kept: seq<nat>, n: nat, x: nat)
    requires Places(all, kept) && n <= |kept|
    ensures x in Sorted(all, f, kept, n) <==> x in kept[..n]
  {
    if n > 0 {
      SortedMembers(all, f, kept, n - 1, x);
      PlacedMembers(all, f, Sorted(all, f, kept, n - 1), kept[n - 1], x);
      AmongNext(kept, n, x);
    }
  }

  lemma {:induction false} PlacedMembers(all: seq<Stream>, f: Filters, order: seq<nat>, i: nat, x: nat)
    requires Places(all, order) && i < |all|
    ensures x in Inserted(all, f, order, |order|, i) <==> x == i || x in order
  {
    InsertedMembers(all, f, order, |order|, i, x);
    assert order[..|order|] == order;
  }

  lemma {:induction false} AmongNext(kept: seq<nat>, n: nat, x: nat)
    requires 0 < n <= |kept|
    ensures x in kept[..n] <==> x == kept[n - 1] || x in kept[..n - 1]
  {
    assert kept[..n] == kept[..n - 1] + [kept[n - 1]];
  }

  lemma {:induction false} SortedInOrder(all: seq<Stream>, f: Filters, kept: seq<nat>, n: nat)
    requires Places(all, kept) && n <= |kept| && Climbing(kept, n)
    ensures InOrder(all, f, Sorted(all, f, kept, n))
  {
    if n > 0 {
      SortedInOrder(all, f, kept, n - 1);
      SortedMembers(all, f, kept, n - 1, kept[n - 1]);
      InsertedInOrder(all, f, Sorted(all, f, kept, n - 1), n - 1, kept[n - 1]);
    }
  }

  // ---- the list ----

  function Order(all: seq<Stream>, f: Filters): (order: seq<nat>)
    ensures Places(all, order)
  {
    var kept := Survivors(Verdicts(all, f), |all|); Sorted(all, f, kept, |kept|)
  }

  function Result(all: seq<Stream>, f: Filters): (list: seq<nat>)
    ensures Places(all, list)
  {
    Order(all, f)[..Min(f.cap, |Order(all, f)|)]
  }

  lemma {:induction false} OrderHolds(all: seq<Stream>, f: Filters)
    ensures InOrder(all, f, Order(all, f))
    ensures forall i: nat :: i in Order(all, f) <==> i < |all| && Dropped(all[i], f).None?
  {
    var v := Verdicts(all, f);
    var kept := Survivors(v, |all|);
    SurvivorsClimb(v, |all|);
    SortedHolds(all, f, kept, |kept|);
    assert kept[..|kept|] == kept;
    forall i: nat ensures i in Order(all, f) <==> i < |all| && Dropped(all[i], f).None? {
      SurvivorsAre(v, |all|, i);
    }
  }

  /** A release is dropped for one reason. */
  lemma {:induction false} OneReason(v: Option<Reason>)
    ensures One(v == Some(Cam)) + One(v == Some(ExcludeRegex)) + One(v == Some(YearMismatch))
            + One(v == Some(TitleMismatch)) + One(v == Some(Resolution)) + One(v == Some(HdrOnly))
            + One(v == Some(MinSeeders)) + One(v == Some(MaxSizeGb)) + One(v == Some(CachedOnly)) == One(v.Some?)
  {
    match v
    case None =>
    case Some(Cam) =>
    case Some(_) =>
  }

  function AllDrops(v: seq<Option<Reason>>, n: nat): nat
    requires n <= |v|
  {
    Drops(v, n, Cam) + Drops(v, n, ExcludeRegex) + Drops(v, n, YearMismatch)
    + Drops(v, n, TitleMismatch) + Drops(v, n, Resolution) + Drops(v, n, HdrOnly)
    + Drops(v, n, MinSeeders) + Drops(v, n, MaxSizeGb) + Drops(v, n, CachedOnly)
  }

  lemma {:induction false} Conserved(v: seq<Option<Reason>>, n: nat)
    requires n <= |v|
    ensures |Survivors(v, n)| + AllDrops(v, n) == n
  {
    if n > 0 {
      Conserved(v, n - 1);
      OneReason(v[n - 1]);
    }
  }

  /** Every release is accounted for: each is in the list, cut by the cap, or counted under the first filter it fails. */
  lemma {:induction false} DropsAndKeptAreTheInput(all: seq<Stream>, f: Filters)
    ensures |Result(all, f)| + Max(|Order(all, f)| - f.cap, 0) + AllDrops(Verdicts(all, f), |all|) == |all|
  {
    Conserved(Verdicts(all, f), |all|);
  }

  /** The list is the capped start of one total order: it holds only releases no filter drops, everything before a place
      is better than what stands there, and every release that no filter drops but the cap cuts off is worse than all
      of it. */
  lemma {:induction false} ListIsTheBest(all: seq<Stream>, f: Filters)
    ensures InOrder(all, f, Result(all, f))
    ensures forall i <- Result(all, f) :: Dropped(all[i], f).None?
    ensures forall i <- Result(all, f), j: nat :: j < |all| && Dropped(all[j], f).None? && j !in Result(all, f) ==>
              Better(all, f, i, j)
  {
    var order, list := Order(all, f), Result(all, f);
    OrderHolds(all, f);
    forall q | 0 <= q < |list| ensures Leads(all, f, list, q) {
      assert Leads(all, f, order, q);
    }
    forall i | i in list ensures Dropped(all[i], f).None? {
      assert i in order;
    }
    forall i, j: nat | i in list && j < |all| && Dropped(all[j], f).None? && j !in list ensures Better(all, f, i, j) {
      assert j in order;
      var p :| 0 <= p < |list| && list[p] == i;
      var q :| 0 <= q < |order| && order[q] == j;
      InPrefix(order, q, |list|);
      assert Leads(all, f, order, q);
    }
  }

  lemma {:induction false} InPrefix(order: seq<nat>, q: nat, m: nat)
    requires q < |order| && m <= |order|
    ensures q < m ==> order[q] in order[..m]
  {
    if q < m {
      assert order[..m][q] == order[q];
    }
  }

  ghost predicate SizesSound(all: seq<Stream>) {
    forall i :: 0 <= i < |all| ==> SizeKnownNonNegative(all[i].release)
  }

  /** What stands before another in the list totals no less. */
  lemma {:induction false} BeforeTotalsMore(all: seq<Stream>, f: Filters, p: nat, q: nat)
    requires p < q < |Result(all, f)|
    ensures Points(all[Result(all, f)[p]], f) >= Points(all[Result(all, f)[q]], f)
  {
    ListIsTheBest(all, f);
    assert Leads(all, f, Result(all, f), q);
    assert Better(all, f, Result(all, f)[p], Result(all, f)[q]);
  }

  /** With no browser's report, no release whose name says another show or episode stands before one whose name says
      neither, junk aside. What a name says of the show counts only when the show's words are known, and of either only
      when an episode was asked for. */
  lemma {:induction false} NoWrongShowBeforeTheRightOne(all: seq<Stream>, f: Filters, p: nat, q: nat)
    requires p < q < |Result(all, f)| && SizesSound(all) && f.browser.None?
    requires var right := all[Result(all, f)[q]];
             !right.release.title.junk && (f.episode ==> !right.otherEpisode && (f.show ==> !right.otherShow))
    ensures var wrong := all[Result(all, f)[p]];
            f.episode ==> !wrong.otherEpisode && (f.show ==> !wrong.otherShow)
  {
    BeforeTotalsMore(all, f, p, q);
    var x, y := all[Result(all, f)[p]], all[Result(all, f)[q]];
    if f.episode && (x.otherEpisode || (f.show && x.otherShow)) {
      RightShowFirst(ListedAs(y, f), ListedAs(x, f));
    }
  }

  /** What two names say of the show and the episode asked for comes to the same. */
  predicate AlikeInShow(x: Stream, y: Stream, f: Filters) {
    f.episode ==> ((f.show && x.otherShow) || x.otherEpisode <==> (f.show && y.otherShow) || y.otherEpisode)
  }

  /** With no browser's report, and alike in being cached and in show: no release known to be of another resolution stands
      before one of the preferred resolution whose penalties are under 590. */
  lemma {:induction false} PreferredComesFirst(all: seq<Stream>, f: Filters, p: nat, q: nat)
    requires p < q < |Result(all, f)| && SizesSound(all) && f.browser.None? && f.prefer.Some?
    requires var x, y := all[Result(all, f)[p]], all[Result(all, f)[q]];
             x.release.cached == y.release.cached && AlikeInShow(x, y, f) && y.bucket == f.prefer
             && !y.release.title.junk && !y.release.title.lines.Untagged? && Penalties(y.release.title) < 590
    ensures all[Result(all, f)[p]].bucket in {f.prefer, None}
  {
    BeforeTotalsMore(all, f, p, q);
    var x, y := all[Result(all, f)[p]], all[Result(all, f)[q]];
    if x.bucket.Some? && x.bucket != f.prefer {
      PreferenceHolds(ListedAs(y, f), ListedAs(x, f));
    }
  }

  /** For a browser, and alike in being cached, in show and in what is known of the resolution: no release it cannot play
      as it is stands before one it can whose penalties are under 610. */
  lemma {:induction false} PlayableComesFirst(all: seq<Stream>, f: Filters, p: nat, q: nat)
    requires p < q < |Result(all, f)| && SizesSound(all) && f.browser.Some?
    requires var x, y := all[Result(all, f)[p]], all[Result(all, f)[q]];
             x.release.cached == y.release.cached && AlikeInShow(x, y, f) && x.bucket == y.bucket
             && !y.release.title.junk && Penalties(y.release.title) < 610
             && Plays(f.browser.value, y.streams) && !Transcodes(f.browser.value, y.streams)
    ensures var x := all[Result(all, f)[p]]; Plays(f.browser.value, x.streams) && !Transcodes(f.browser.value, x.streams)
  {
    BeforeTotalsMore(all, f, p, q);
    var x, y := all[Result(all, f)[p]], all[Result(all, f)[q]];
    CostTiers(f.browser.value, x.streams);
    CostTiers(f.browser.value, y.streams);
    if !(Plays(f.browser.value, x.streams) && !Transcodes(f.browser.value, x.streams)) {
      PlaysAsItIsFirst(ListedAs(y, f), ListedAs(x, f));
    }
  }

  /** Alike in all that is scored, the better seeded stands first, and else the one that came first. */
  lemma {:induction false} TiesAreStable(all: seq<Stream>, f: Filters, p: nat, q: nat)
    requires p < q < |Result(all, f)|
    requires var x, y := all[Result(all, f)[p]], all[Result(all, f)[q]];
             x.release == y.release && x.streams == y.streams && x.bucket == y.bucket
             && x.otherShow == y.otherShow && x.otherEpisode == y.otherEpisode
    ensures var i, j := Result(all, f)[p], Result(all, f)[q];
            var m, n := if all[i].seeders.Some? then all[i].seeders.value else 0,
                        if all[j].seeders.Some? then all[j].seeders.value else 0;
            m > n || (m == n && i < j)
  {
    ListIsTheBest(all, f);
    assert Leads(all, f, Result(all, f), q);
    assert Better(all, f, Result(all, f)[p], Result(all, f)[q]);
  }

  /** Only what is known drops a release: it is among those ordered exactly when none of the filters asked for says no to
      something known of it. A title with neither year nor a shared word, and one not marked HDR, is a no. */
  lemma {:induction false} KeptExactly(all: seq<Stream>, f: Filters, i: nat)
    requires i < |all|
    ensures var s := all[i];
            i in Order(all, f)
            <==> !(f.excludeCam && s.release.title.junk) && !(f.exclude && s.excluded)
                 && !(f.year && s.yearMismatch) && (f.tokens ==> s.hasYear || s.sharesToken)
                 && (f.resolutions == {} || s.bucket.None? || s.bucket.value in f.resolutions)
                 && (f.hdrOnly ==> s.hdr)
                 && (f.minSeeders.Some? && s.seeders.Some? ==> s.seeders.value >= f.minSeeders.value)
                 && (f.maxSizeGb.Some? && f.maxSizeGb.value >= 0 && s.release.size.Some? ==>
                       s.release.size.value <= f.maxSizeGb.value * 1_073_741_824)
                 && (f.maxSizeGb.Some? && f.maxSizeGb.value < 0 ==>
                       s.release.size.Some? && s.release.size.value <= f.maxSizeGb.value * 1_073_741_824)
                 && (f.cachedOnly && s.cacheKnown ==> s.release.cached)
  {
    OrderHolds(all, f);
  }

  /** rankStreams. `drops` counts the releases each filter dropped, `cut` those past the cap. */
  method RankStreams(all: seq<Stream>, f: Filters) returns (list: seq<nat>, drops: map<Reason, nat>, cut: nat)
    ensures list == Result(all, f) && cut == Max(|Order(all, f)| - f.cap, 0)
    ensures forall why :: (if why in drops then drops[why] else 0) == Drops(Verdicts(all, f), |all|, why)
  {
    ghost var v := Verdicts(all, f);
    drops := map[];
    var kept: seq<nat> := [];
    for i := 0 to |all|
      invariant kept == Survivors(v, i)
      invariant forall why :: (if why in drops then drops[why] else 0) == Drops(v, i, why)
    {
      var why := Dropped(all[i], f);
      assert v[i] == why;
      if why.Some? {
        drops := drops[why.value := (if why.value in drops then drops[why.value] else 0) + 1];
      } else {
        kept := kept + [i];
      }
    }
    list := Sorted(all, f, kept, |kept|);
    cut := 0;
    if |list| > f.cap {
      cut := |list| - f.cap;
      list := list[..f.cap];
    }
  }

  // ---- the cap before the cache check ----

  /** No filter, no preference, no browser: only the title's own score, and a cap. */
  function CapOnly(limit: nat): Filters {
    Filters(false, false, false, false, {}, None, false, None, None, false, limit, None, false, false)
  }

  function Everything(n: nat): (order: seq<nat>)
    ensures forall i :: 0 <= i < |order| ==> order[i] < n
  {
    if n == 0 then [] else Everything(n - 1) + [n - 1]
  }

  /** capSeeds: a scrape no longer than the limit is left as it came. */
  function CapSeeds(all: seq<Stream>, limit: int): seq<nat> {
    if limit <= 0 || |all| <= limit then Everything(|all|) else Result(all, CapOnly(limit))
  }

  lemma {:induction false} EverythingIs(n: nat, i: nat)
    requires i < n
    ensures |Everything(n)| == n && Everything(n)[i] == i
  {
    if i < n - 1 {
      EverythingIs(n - 1, i);
    } else if n > 1 {
      EverythingIs(n - 1, 0);
    }
  }

  /** With no limit, or a scrape no longer than it, every release is left where it was; else just so many are kept. */
  lemma {:induction false} CapBitesExactly(all: seq<Stream>, limit: int, i: nat)
    requires i < |all|
    ensures limit <= 0 || |all| <= limit ==> |CapSeeds(all, limit)| == |all| && CapSeeds(all, limit)[i] == i
    ensures 0 < limit < |all| ==> |CapSeeds(all, limit)| == limit
  {
    EverythingIs(|all|, i);
    if 0 < limit < |all| {
      DropsAndKeptAreTheInput(all, CapOnly(limit));
      NothingDropped(all, limit, |all|);
    }
  }

  lemma {:induction false} NothingDropped(all: seq<Stream>, limit: nat, n: nat)
    requires n <= |all|
    ensures AllDrops(Verdicts(all, CapOnly(limit)), n) == 0
  {
    if n > 0 {
      NothingDropped(all, limit, n - 1);
    }
  }

  /** What the cap cuts off is worse than everything it keeps: by score, then seeders, then the order it came in. */
  lemma {:induction false} CapKeepsTheBest(all: seq<Stream>, limit: int, i: nat, j: nat)
    requires i in CapSeeds(all, limit) && j < |all| && j !in CapSeeds(all, limit) && 0 < limit < |all|
    ensures Better(all, CapOnly(limit), i, j)
  {
    assert Dropped(all[j], CapOnly(limit)).None?;
    ListIsTheBest(all, CapOnly(limit));
  }
}
