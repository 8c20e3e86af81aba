// What a pool of debrid stores learns together (internal/scout/stores.go, internal/scout/handler.go,
// internal/scout/rank.go): which releases are cached, which store is fetching one, and the order they are tried in.
module StorePool {
  import opened Common
  import opened Batching = CheckBatcher
  import Scores
  import Ranking = StreamRanking

  datatype Service = TorBox | RealDebrid | Premiumize

  predicate CacheTruthService(s: Service) {
    s.TorBox? || s.Premiumize?
  }

  // ---- one store's check ----

  function Asking(hashes: seq<Hash>, n: nat, memo: set<Hash>): seq<Hash>
    requires n <= |hashes|
  {
    if n == 0 then []
    else if hashes[n - 1] in memo then Asking(hashes, n - 1, memo)
    else Asking(hashes, n - 1, memo) + [hashes[n - 1]]
  }

  /** Seeds come one to a hash, so no hash is asked about twice. */
  ghost predicate Distinct(hashes: seq<Hash>) {
    forall i, j :: 0 <= i < j < |hashes| ==> hashes[i] != hashes[j]
  }

  /** A round of the batcher: what it asked about, and what its requests came back with. */
  datatype Round = Round(all: seq<Hash>, bodies: Bodies)

  /** What Premiumize answers for a batch: nothing usable, or a list of booleans, of whatever length. */
  datatype Listed = NotListed | Listed(response: seq<bool>)

  /** What each batch of a hundred hashes came back with: at TorBox the round it was joined into, at Premiumize a list. */
  datatype Replies = Rounds(rounds: nat -> Round) | Lists(lists: nat -> Listed)

  function Batch(ask: seq<Hash>, k: nat): seq<Hash> {
    if k * BATCH < |ask| then ask[k * BATCH..Min((k + 1) * BATCH, |ask|)] else []
  }

  function RoundSays(round: Round, demand: Demand, h: Hash): Option<bool>
    requires h in demand
  {
    var r := ReplyTo(demand, Answers(round.all, |round.all|, round.bodies));
    if r.ok then Some(r.cached[h]) else None
  }

  /** A list that stops short reads as a no from there on. */
  function ListSays(list: Listed, j: nat): Option<bool> {
    if list.NotListed? then None else Some(j < |list.response| && list.response[j])
  }

  lemma {:induction false} InBatch(ask: seq<Hash>, p: nat)
    requires p < |ask|
    ensures ask[p] in Batch(ask, p / BATCH)
  {
    var k := p / BATCH;
    assert Batch(ask, k)[p - k * BATCH] == ask[p];
  }

  /** What the store takes the batch of the p-th hash to say of it. */
  function Hears(r: Replies, ask: seq<Hash>, p: nat): Option<bool>
    requires p < |ask|
  {
    match r
    case Rounds(rounds) =>
      InBatch(ask, p);
      RoundSays(rounds(p / BATCH), Batch(ask, p / BATCH), ask[p])
    case Lists(lists) => ListSays(lists(p / BATCH), p % BATCH)
  }

  /** Whether the reply does say something of it: TorBox's has data, Premiumize's reaches that far. */
  ghost predicate Covers(r: Replies, ask: seq<Hash>, p: nat)
    requires p < |ask|
  {
    match r
    case Rounds(rounds) =>
      var round := rounds(p / BATCH);
      Carried(round.all, |round.all|, round.bodies, ask[p])
    case Lists(lists) =>
      var list := lists(p / BATCH);
      list.Listed? && p % BATCH < |list.response|
  }

  /** What the replies do say is so. */
  ghost predicate Truthful(r: Replies, ask: seq<Hash>, truth: set<Hash>) {
    forall p :: 0 <= p < |ask| && Hears(r, ask, p).Some? && Covers(r, ask, p) ==>
      Hears(r, ask, p).value == (ask[p] in truth)
  }

  function HeardOf(r: Replies, ask: seq<Hash>): (heard: seq<Option<bool>>)
    ensures |heard| == |ask|
    ensures forall p :: 0 <= p < |ask| ==> heard[p] == Hears(r, ask, p)
  {
    seq(|ask|, p requires 0 <= p < |ask| => Hears(r, ask, p))
  }

  function Told(ask: seq<Hash>, heard: seq<Option<bool>>, n: nat): map<Hash, bool>
    requires n <= |ask| == |heard|
  {
    if n == 0 then map[]
    else if heard[n - 1].None? then Told(ask, heard, n - 1)
    else Told(ask, heard, n - 1)[ask[n - 1] := heard[n - 1].value]
  }

  /** CacheCheck: what was confirmed in the last minute, and what the batches that worked are taken to say of the rest;
      None when every batch failed. */
  function Checked(hashes: seq<Hash>, memo: set<Hash>, r: Replies): Option<map<Hash, bool>> {
    var ask := Asking(hashes, |hashes|, memo);
    var known := map h | h in hashes && h in memo :: true;
    if |ask| == 0 then Some(known)
    else
      var heard := HeardOf(r, ask);
      if forall p | 0 <= p < |ask| :: heard[p].None? then None else Some(known + Told(ask, heard, |ask|))
  }

  /** Some reply is taken to say this of the hash. */
  ghost predicate Heeded(r: Replies, ask: seq<Hash>, n: nat, h: Hash, yes: bool)
    requires n <= |ask|
  {
    exists p :: 0 <= p < n && ask[p] == h && Hears(r, ask, p) == Some(yes)
  }

  /** Some reply does say no. */
  ghost predicate Denied(r: Replies, ask: seq<Hash>, h: Hash) {
    exists p :: 0 <= p < |ask| && ask[p] == h && Hears(r, ask, p) == Some(false) && Covers(r, ask, p)
  }

  lemma {:induction false} ToldAre(ask: seq<Hash>, heard: seq<Option<bool>>, n: nat, h: Hash)
    requires n <= |ask| == |heard|
    ensures var m := Told(ask, heard, n); h in m ==> exists p :: 0 <= p < n && ask[p] == h && heard[p] == Some(m[h])
  {
    if n > 0 {
      ToldAre(ask, heard, n - 1, h);
      var m, before := Told(ask, heard, n), Told(ask, heard, n - 1);
      if heard[n - 1].Some? && ask[n - 1] == h {
        assert heard[n - 1] == Some(m[h]);
      } else if h in before {
        var p :| 0 <= p < n - 1 && ask[p] == h && heard[p] == Some(before[h]);
        assert heard[p] == Some(m[h]);
      }
    }
  }

  lemma {:induction false} ToldAt(ask: seq<Hash>, heard: seq<Option<bool>>, n: nat, p: nat)
    requires p < n <= |ask| == |heard| && (forall j :: p < j < n ==> ask[j] != ask[p]) && heard[p].Some?
    ensures var m := Told(ask, heard, n); ask[p] in m && m[ask[p]] == heard[p].value
    decreases n
  {
    if p < n - 1 {
      ToldAt(ask, heard, n - 1, p);
    }
  }

  lemma {:induction false} AskingIs(hashes: seq<Hash>, n: nat, memo: set<Hash>)
    requires Distinct(hashes) && n <= |hashes|
    ensures var ask := Asking(hashes, n, memo);
            Distinct(ask) && forall h <- ask :: h !in memo && exists i :: 0 <= i < n && hashes[i] == h
  {
    if n > 0 {
      AskingIs(hashes, n - 1, memo);
      var ask, before := Asking(hashes, n, memo), Asking(hashes, n - 1, memo);
      forall h | h in ask ensures h !in memo && exists i :: 0 <= i < n && hashes[i] == h {
        if h in before {
          var i :| 0 <= i < n - 1 && hashes[i] == h;
          assert hashes[i] == h;
        } else {
          assert hashes[n - 1] == h;
        }
      }
    }
  }

  /** A reply that says nothing of a hash is taken for a no. */
  lemma {:induction false} SilenceReadsNo(r: Replies, ask: seq<Hash>, p: nat)
    requires p < |ask| && Hears(r, ask, p).Some? && !Covers(r, ask, p)
    ensures Hears(r, ask, p) == Some(false)
  {
    if r.Rounds? {
      var round := r.rounds(p / BATCH);
      InBatch(ask, p);
      AnswersAre(round.all, |round.all|, round.bodies, ask[p]);
      WordsCarried(round.all, round.bodies, {}, ask[p], Hears(r, ask, p).value);
    }
  }

  /** A store answers "no" only out of a batch that worked. */
  lemma {:induction false} NoIsHeard(hashes: seq<Hash>, memo: set<Hash>, r: Replies, h: Hash)
    ensures var m := Checked(hashes, memo, r);
            var ask := Asking(hashes, |hashes|, memo);
            m.Some? && h in m.value && !m.value[h] ==> Heeded(r, ask, |ask|, h, false)
  {
    var ask := Asking(hashes, |hashes|, memo);
    var heard := HeardOf(r, ask);
    ToldAre(ask, heard, |ask|, h);
    if h in Told(ask, heard, |ask|) {
      var p :| 0 <= p < |ask| && ask[p] == h && heard[p] == Some(Told(ask, heard, |ask|)[h]);
      assert Hears(r, ask, p) == Some(Told(ask, heard, |ask|)[h]);
    }
  }

  /** What the replies name, and one hash besides. */
  ghost function YesAnd(r: Replies, ask: seq<Hash>, h: Hash): (truth: set<Hash>)
    ensures h in truth
    ensures forall g :: g in truth && g != h ==> Heeded(r, ask, |ask|, g, true)
    ensures forall p :: 0 <= p < |ask| && Hears(r, ask, p) == Some(true) ==> ask[p] in truth
  {
    {h} + set p | 0 <= p < |ask| && Hears(r, ask, p) == Some(true) :: ask[p]
  }

  lemma {:induction false} TruthfulWith(r: Replies, ask: seq<Hash>, h: Hash)
    requires Distinct(ask) && !Denied(r, ask, h)
    ensures Truthful(r, ask, YesAnd(r, ask, h))
  {
    var truth := YesAnd(r, ask, h);
    forall p | 0 <= p < |ask| && ask[p] in truth && ask[p] != h ensures Hears(r, ask, p) == Some(true) {
      var q :| 0 <= q < |ask| && ask[q] == ask[p] && Hears(r, ask, q) == Some(true);
      assert q == p;
    }
    forall p | 0 <= p < |ask| && ask[p] == h && Covers(r, ask, p) ensures Hears(r, ask, p) != Some(false) {
    }
  }

  /** Whatever it holds, a store that says what is so does not hold this release, if and only if a reply denied it. */
  lemma {:induction false} DeniedExactly(r: Replies, ask: seq<Hash>, h: Hash)
    requires Distinct(ask)
    ensures (forall truth: set<Hash> :: Truthful(r, ask, truth) ==> h !in truth) <==> Denied(r, ask, h)
  {
    if !Denied(r, ask, h) {
      TruthfulWith(r, ask, h);
      assert Truthful(r, ask, YesAnd(r, ask, h)) && h in YesAnd(r, ask, h);
    }
  }

  /** Every release the store says no to is one it does not hold. */
  ghost predicate NoesTrue(m: Option<map<Hash, bool>>, truth: set<Hash>) {
    forall h :: m.Some? && h in m.value && !m.value[h] ==> h !in truth
  }

  ghost predicate CoversAll(r: Replies, ask: seq<Hash>) {
    forall p :: 0 <= p < |ask| && Hears(r, ask, p).Some? ==> Covers(r, ask, p)
  }

  /** So all a store's noes can be trusted, whatever it holds, if and only if every working reply covers its batch. */
  lemma {:induction false} NoesTrueExactly(hashes: seq<Hash>, memo: set<Hash>, r: Replies)
    requires Distinct(hashes)
    ensures var ask, m := Asking(hashes, |hashes|, memo), Checked(hashes, memo, r);
            (forall truth: set<Hash> :: Truthful(r, ask, truth) ==> NoesTrue(m, truth)) <==> CoversAll(r, ask)
  {
    var ask, m := Asking(hashes, |hashes|, memo), Checked(hashes, memo, r);
    if CoversAll(r, ask) {
      forall truth: set<Hash> | Truthful(r, ask, truth) ensures NoesTrue(m, truth) {
        CoveredNoesTrue(hashes, memo, r, truth);
      }
    } else {
      var p :| 0 <= p < |ask| && Hears(r, ask, p).Some? && !Covers(r, ask, p);
      UncoveredNo(hashes, memo, r, p);
      assert Truthful(r, ask, YesAnd(r, ask, ask[p])) && !NoesTrue(m, YesAnd(r, ask, ask[p]));
    }
  }

  lemma {:induction false} CoveredNoesTrue(hashes: seq<Hash>, memo: set<Hash>, r: Replies, truth: set<Hash>)
    requires var ask := Asking(hashes, |hashes|, memo); CoversAll(r, ask) && Truthful(r, ask, truth)
    ensures NoesTrue(Checked(hashes, memo, r), truth)
  {
    var ask, m := Asking(hashes, |hashes|, memo), Checked(hashes, memo, r);
    forall h | m.Some? && h in m.value && !m.value[h] ensures h !in truth {
      NoIsHeard(hashes, memo, r, h);
      var p :| 0 <= p < |ask| && ask[p] == h && Hears(r, ask, p) == Some(false);
      assert Covers(r, ask, p);
    }
  }

  lemma {:induction false} UncoveredNotDenied(r: Replies, ask: seq<Hash>, p: nat)
    requires Distinct(ask) && p < |ask| && !Covers(r, ask, p)
    ensures !Denied(r, ask, ask[p])
  {
    forall q | 0 <= q < |ask| && ask[q] == ask[p] ensures !Covers(r, ask, q) {
      assert q == p;
    }
  }

  lemma {:induction false} HeardIsChecked(hashes: seq<Hash>, memo: set<Hash>, r: Replies, p: nat)
    requires var ask := Asking(hashes, |hashes|, memo); Distinct(ask) && p < |ask| && Hears(r, ask, p).Some?
    ensures var ask, m := Asking(hashes, |hashes|, memo), Checked(hashes, memo, r);
            m.Some? && ask[p] in m.value && m.value[ask[p]] == Hears(r, ask, p).value
  {
    var ask := Asking(hashes, |hashes|, memo);
    var heard := HeardOf(r, ask);
    assert heard[p].Some?;
    ToldAt(ask, heard, |ask|, p);
  }

  lemma {:induction false} UncoveredNo(hashes: seq<Hash>, memo: set<Hash>, r: Replies, p: nat)
    requires Distinct(hashes) && p < |Asking(hashes, |hashes|, memo)|
    requires var ask := Asking(hashes, |hashes|, memo); Hears(r, ask, p).Some? && !Covers(r, ask, p)
    ensures var ask, m := Asking(hashes, |hashes|, memo), Checked(hashes, memo, r);
            Truthful(r, ask, YesAnd(r, ask, ask[p])) && m.Some? && ask[p] in m.value && !m.value[ask[p]]
  {
    var ask := Asking(hashes, |hashes|, memo);
    AskingIs(hashes, |hashes|, memo);
    SilenceReadsNo(r, ask, p);
    HeardIsChecked(hashes, memo, r, p);
    UncoveredNotDenied(r, ask, p);
    TruthfulWith(r, ask, ask[p]);
  }

  /** At Premiumize that is: no list that came back is shorter than its batch. */
  lemma {:induction false} ListsCoverExactly(r: Replies, ask: seq<Hash>)
    requires r.Lists?
    ensures CoversAll(r, ask)
            <==> forall k: nat :: r.lists(k).Listed? ==> |Batch(ask, k)| <= |r.lists(k).response|
  {
    forall p | 0 <= p < |ask| && Hears(r, ask, p).Some? && !Covers(r, ask, p)
      ensures var k := p / BATCH; r.lists(k).Listed? && |Batch(ask, k)| > |r.lists(k).response|
    {
    }
    forall k: nat | r.lists(k).Listed? && |Batch(ask, k)| > |r.lists(k).response|
      ensures exists p :: 0 <= p < |ask| && Hears(r, ask, p).Some? && !Covers(r, ask, p)
    {
      var p := k * BATCH + |r.lists(k).response|;
      assert p / BATCH == k && p % BATCH == |r.lists(k).response|;
      assert Hears(r, ask, p).Some? && !Covers(r, ask, p);
    }
  }

  /** At TorBox: each hash of a batch that was answered in full was in a request whose body had data. And a store is
      truthful when the bodies of its rounds are. */
  lemma {:induction false} HonestRoundsAreTruthful(r: Replies, ask: seq<Hash>, truth: set<Hash>)
    requires r.Rounds?
    requires forall k: nat :: AskedOnce(r.rounds(k).all) && Honest(r.rounds(k).all, r.rounds(k).bodies, truth)
    ensures Truthful(r, ask, truth)
  {
    forall p | 0 <= p < |ask| && Hears(r, ask, p).Some? && Covers(r, ask, p)
      ensures Hears(r, ask, p).value == (ask[p] in truth)
    {
      var round := r.rounds(p / BATCH);
      InBatch(ask, p);
      BatchingPreservesMeaning(round.all, round.bodies, truth, Batch(ask, p / BATCH));
    }
  }

  // ---- the pool ----

  /** What one store reported: nothing when its check failed. */
  datatype Report = Report(service: Service, answer: Option<map<Hash, bool>>)

  predicate Says(r: Report, h: Hash, yes: bool) {
    r.answer.Some? && h in r.answer.value && r.answer.value[h] == yes
  }

  predicate AnswersFor(r: Report, h: Hash) {
    r.answer.Some? && h in r.answer.value
  }

  /** The services that hold a release, in configured order. */
  function Holders(reports: seq<Report>, n: nat, h: Hash): seq<Service>
    requires n <= |reports|
  {
    if n == 0 then []
    else if Says(reports[n - 1], h, true) then Holders(reports, n - 1, h) + [reports[n - 1].service]
    else Holders(reports, n - 1, h)
  }

  function One(yes: bool): nat { if yes then 1 else 0 }

  /** How many cache-truth stores answered for a release, and how many there are. */
  function Votes(reports: seq<Report>, n: nat, h: Hash): nat
    requires n <= |reports|
  {
    if n == 0 then 0
    else Votes(reports, n - 1, h) + One(CacheTruthService(reports[n - 1].service) && AnswersFor(reports[n - 1], h))
  }

  function TruthStores(reports: seq<Report>, n: nat): nat
    requires n <= |reports|
  {
    if n == 0 then 0 else TruthStores(reports, n - 1) + One(CacheTruthService(reports[n - 1].service))
  }

  function Heard(reports: seq<Report>, n: nat): nat
    requires n <= |reports|
  {
    if n == 0 then 0
    else
      var r := reports[n - 1];
      Heard(reports, n - 1) + One(CacheTruthService(r.service) && r.answer.Some? && r.answer.value != map[])
  }

  predicate Cached(reports: seq<Report>, h: Hash) {
    Holders(reports, |reports|, h) != []
  }

  predicate Known(reports: seq<Report>, h: Hash) {
    var votes := Votes(reports, |reports|, h);
    votes > 0 && (Cached(reports, h) || votes == TruthStores(reports, |reports|))
  }

  predicate Complete(reports: seq<Report>) {
    Heard(reports, |reports|) == TruthStores(reports, |reports|)
  }

  lemma {:induction false} VotesAre(reports: seq<Report>, n: nat, h: Hash)
    requires n <= |reports|
    ensures var votes := Votes(reports, n, h);
            votes <= TruthStores(reports, n)
            && (votes == TruthStores(reports, n)
                <==> forall i :: 0 <= i < n && CacheTruthService(reports[i].service) ==> AnswersFor(reports[i], h))
            && (votes > 0
                <==> exists i :: 0 <= i < n && CacheTruthService(reports[i].service) && AnswersFor(reports[i], h))
  {
    if n > 0 {
      VotesAre(reports, n - 1, h);
      var r := reports[n - 1];
      if CacheTruthService(r.service) && AnswersFor(r, h) {
        assert CacheTruthService(reports[n - 1].service) && AnswersFor(reports[n - 1], h);
      }
    }
  }

  lemma {:induction false} HoldersAre(reports: seq<Report>, n: nat, h: Hash)
    requires n <= |reports|
    ensures Holders(reports, n, h) != [] <==> exists i :: 0 <= i < n && Says(reports[i], h, true)
  {
    if n > 0 {
      HoldersAre(reports, n - 1, h);
      if Says(reports[n - 1], h, true) {
        assert Says(reports[n - 1], h, true);
      }
    }
  }

  /** A release is known not to be cached exactly when there is a cache-truth store, every one of them answered "no" for
      it, and no store said "yes". */
  lemma {:induction false} KnownNotCachedExactly(reports: seq<Report>, h: Hash)
    ensures Known(reports, h) && !Cached(reports, h)
            <==> (exists i :: 0 <= i < |reports| && CacheTruthService(reports[i].service))
                 && (forall i :: 0 <= i < |reports| && CacheTruthService(reports[i].service) ==> Says(reports[i], h, false))
                 && (forall i :: 0 <= i < |reports| ==> !Says(reports[i], h, true))
  {
    VotesAre(reports, |reports|, h);
    HoldersAre(reports, |reports|, h);
    if exists i :: 0 <= i < |reports| && CacheTruthService(reports[i].service) {
      var i :| 0 <= i < |reports| && CacheTruthService(reports[i].service);
      assert AnswersFor(reports[i], h) ==> Says(reports[i], h, false) || Says(reports[i], h, true);
    }
  }

  /** How each store of a pool came to its report. Real-Debrid has nothing to ask and says no to all. */
  datatype Source = Asks(memo: set<Hash>, replies: Replies) | SaysNo

  function ServiceOf(s: Source): Service {
    if s.SaysNo? then RealDebrid else if s.replies.Rounds? then TorBox else Premiumize
  }

  function ReportOf(s: Source, hashes: seq<Hash>): Report {
    Report(ServiceOf(s), if s.SaysNo? then Some(map h | h in hashes :: false) else Checked(hashes, s.memo, s.replies))
  }

  function Reports(sources: seq<Source>, hashes: seq<Hash>): (r: seq<Report>)
    ensures |r| == |sources|
    ensures forall i :: 0 <= i < |sources| ==> r[i] == ReportOf(sources[i], hashes)
  {
    seq(|sources|, i requires 0 <= i < |sources| => ReportOf(sources[i], hashes))
  }

  /** A store says yes to a release it is asked about when it was confirmed in the last minute, or a working reply names
      it; but nothing at all once every one of its batches failed. */
  ghost predicate SaysYes(s: Source, hashes: seq<Hash>, h: Hash) {
    s.Asks? && h in hashes
    && var ask := Asking(hashes, |hashes|, s.memo);
       (|ask| == 0 || exists p :: 0 <= p < |ask| && Hears(s.replies, ask, p).Some?)
       && (h in s.memo || Heeded(s.replies, ask, |ask|, h, true))
  }

  lemma {:induction false} AskedInHashes(hashes: seq<Hash>, n: nat, memo: set<Hash>, h: Hash)
    requires n <= |hashes|
    ensures h in Asking(hashes, n, memo) <==> h !in memo && exists i :: 0 <= i < n && hashes[i] == h
  {
    if n > 0 {
      AskedInHashes(hashes, n - 1, memo, h);
      if hashes[n - 1] == h {
        assert hashes[n - 1] == h;
      }
    }
  }

  lemma {:induction false} ToldYes(r: Replies, ask: seq<Hash>, h: Hash)
    requires Distinct(ask)
    ensures var told := Told(ask, HeardOf(r, ask), |ask|);
            (h in told ==> h in ask) && (h in told && told[h] <==> Heeded(r, ask, |ask|, h, true))
  {
    var heard := HeardOf(r, ask);
    var told := Told(ask, heard, |ask|);
    ToldAre(ask, heard, |ask|, h);
    if h in told {
      var p :| 0 <= p < |ask| && ask[p] == h && heard[p] == Some(told[h]);
      assert Hears(r, ask, p) == Some(told[h]);
    }
    if Heeded(r, ask, |ask|, h, true) {
      var p :| 0 <= p < |ask| && ask[p] == h && Hears(r, ask, p) == Some(true);
      assert heard[p] == Some(true);
      ToldAt(ask, heard, |ask|, p);
    }
  }

  lemma {:induction false} NoneHeard(r: Replies, ask: seq<Hash>)
    ensures (forall p :: 0 <= p < |ask| ==> HeardOf(r, ask)[p].None?)
            <==> !exists p :: 0 <= p < |ask| && Hears(r, ask, p).Some?
  {
    if exists p :: 0 <= p < |ask| && Hears(r, ask, p).Some? {
      var p :| 0 <= p < |ask| && Hears(r, ask, p).Some?;
      assert HeardOf(r, ask)[p].Some?;
    }
  }

  lemma {:induction false} CheckedYes(hashes: seq<Hash>, memo: set<Hash>, r: Replies, h: Hash)
    requires Distinct(hashes)
    ensures var m := Checked(hashes, memo, r);
            m.Some? && h in m.value && m.value[h] <==> SaysYes(Asks(memo, r), hashes, h)
  {
    var ask := Asking(hashes, |hashes|, memo);
    AskingIs(hashes, |hashes|, memo);
    AskedInHashes(hashes, |hashes|, memo, h);
    ToldYes(r, ask, h);
    NoneHeard(r, ask);
  }

  lemma {:induction false} SourceYes(s: Source, hashes: seq<Hash>, h: Hash)
    requires Distinct(hashes)
    ensures Says(ReportOf(s, hashes), h, true) <==> SaysYes(s, hashes, h)
  {
    if s.Asks? {
      CheckedYes(hashes, s.memo, s.replies, h);
    }
  }

  /** Exactly when a release is cached: some store that can be asked says yes. Real-Debrid never does. */
  lemma {:induction false} CachedExactly(sources: seq<Source>, hashes: seq<Hash>, h: Hash)
    requires Distinct(hashes)
    ensures Cached(Reports(sources, hashes), h)
            <==> exists i :: 0 <= i < |sources| && SaysYes(sources[i], hashes, h)
  {
    var reports := Reports(sources, hashes);
    HoldersAre(reports, |reports|, h);
    forall i | 0 <= i < |sources| ensures Says(reports[i], h, true) <==> SaysYes(sources[i], hashes, h) {
      SourceYes(sources[i], hashes, h);
    }
  }

  /** Each store reports as what it is: only TorBox is asked in rounds, and only Premiumize by list. */
  lemma {:induction false} ReportsAre(s: Source, hashes: seq<Hash>)
    ensures ReportOf(s, hashes).service
            == match s
               case SaysNo => RealDebrid
               case Asks(_, Rounds(_)) => TorBox
               case Asks(_, Lists(_)) => Premiumize
    ensures CacheTruthService(ReportOf(s, hashes).service) <==> s.Asks?
  {
  }

  /** Whether the cached-only filter may run: never while a cache-truth store is out. */
  predicate Filters(reports: seq<Report>) {
    TruthStores(reports, |reports|) > 0 && Heard(reports, |reports|) > 0 && Complete(reports)
  }

  /** A release as it is ranked: with what the pool learned of its hash. */
  function Stamped(s: Ranking.Stream, reports: seq<Report>, h: Hash): Ranking.Stream {
    s.(release := s.release.(cached := Cached(reports, h)), cacheKnown := Known(reports, h))
  }

  function Effective(f: Ranking.Filters, reports: seq<Report>): Ranking.Filters {
    f.(cachedOnly := f.cachedOnly && Filters(reports))
  }

  /** The ranking's cached-only filter drops the release. */
  predicate Drops(reports: seq<Report>, s: Ranking.Stream, f: Ranking.Filters, h: Hash) {
    Ranking.Dropped(Stamped(s, reports, h), Effective(f, reports)) == Some(Ranking.CachedOnly)
  }

  /** No filter but cached-only drops the release. */
  predicate KeptOtherwise(s: Ranking.Stream, f: Ranking.Filters) {
    Ranking.Dropped(s, f.(cachedOnly := false)).None?
  }

  /** The filter may run exactly when there is a cache-truth store and every one of them answered for something. */
  lemma {:induction false} FiltersExactly(reports: seq<Report>)
    ensures Filters(reports)
            <==> (exists i :: 0 <= i < |reports| && CacheTruthService(reports[i].service))
                 && forall i :: 0 <= i < |reports| && CacheTruthService(reports[i].service) ==>
                      reports[i].answer.Some? && reports[i].answer.value != map[]
  {
    HeardAre(reports, |reports|);
  }

  lemma {:induction false} HeardAre(reports: seq<Report>, n: nat)
    requires n <= |reports|
    ensures Heard(reports, n) <= TruthStores(reports, n)
    ensures TruthStores(reports, n) > 0 <==> exists i :: 0 <= i < n && CacheTruthService(reports[i].service)
    ensures Heard(reports, n) == TruthStores(reports, n)
            <==> forall i :: 0 <= i < n && CacheTruthService(reports[i].service) ==>
                   reports[i].answer.Some? && reports[i].answer.value != map[]
  {
    if n > 0 {
      HeardAre(reports, n - 1);
      if CacheTruthService(reports[n - 1].service) {
        assert CacheTruthService(reports[n - 1].service);
      }
    }
  }

  /** Of a release no other filter drops, that is: cached-only is asked for and may run, and the release is known not to
      be cached. */
  lemma {:induction false} DropsExactly(reports: seq<Report>, s: Ranking.Stream, f: Ranking.Filters, h: Hash)
    ensures Drops(reports, s, f, h)
            <==> KeptOtherwise(s, f) && f.cachedOnly && Filters(reports) && !Cached(reports, h) && Known(reports, h)
  {
  }

  lemma {:induction false} DropsAreHeard(sources: seq<Source>, hashes: seq<Hash>, h: Hash, i: nat)
    requires var reports := Reports(sources, hashes); Known(reports, h) && !Cached(reports, h)
    requires i < |sources| && sources[i].Asks?
    ensures var ask := Asking(hashes, |hashes|, sources[i].memo);
            Heeded(sources[i].replies, ask, |ask|, h, false)
  {
    var reports := Reports(sources, hashes);
    KnownNotCachedExactly(reports, h);
    var s := sources[i];
    assert reports[i] == ReportOf(s, hashes);
    assert Says(reports[i], h, false);
    NoIsHeard(hashes, s.memo, s.replies, h);
  }

  /** Cached-only never drops on a failed check: whatever batches failed at whatever store, a release it drops is one
      that every cache-truth store was asked about in a batch that worked. And none of them can hold it, whatever they
      hold, if and only if the reply of each does deny it; a reply that covers its batch always does. */
  lemma {:induction false} CachedOnlyDropsOnlyDenied(sources: seq<Source>, hashes: seq<Hash>, s: Ranking.Stream,
                                                     f: Ranking.Filters, h: Hash, i: nat)
    requires Distinct(hashes) && Drops(Reports(sources, hashes), s, f, h)
    requires i < |sources| && sources[i].Asks?
    ensures var r, ask := sources[i].replies, Asking(hashes, |hashes|, sources[i].memo);
            Heeded(r, ask, |ask|, h, false)
            && ((forall truth: set<Hash> :: Truthful(r, ask, truth) ==> h !in truth) <==> Denied(r, ask, h))
            && (CoversAll(r, ask) ==> Denied(r, ask, h))
  {
    var r, ask := sources[i].replies, Asking(hashes, |hashes|, sources[i].memo);
    AskingIs(hashes, |hashes|, sources[i].memo);
    DropsExactly(Reports(sources, hashes), s, f, h);
    DropsAreHeard(sources, hashes, h, i);
    DeniedExactly(r, ask, h);
    var p :| 0 <= p < |ask| && ask[p] == h && Hears(r, ask, p) == Some(false);
    assert Covers(r, ask, p) ==> Denied(r, ask, h);
  }

  /** With one store to ask and nothing confirmed: it tells the truth, and a release it holds is dropped, whatever else is
      known of it, by any filters that ask for cached-only and would have kept it. */
  ghost predicate DropsHeld(r: Replies, hashes: seq<Hash>, h: Hash) {
    Truthful(r, hashes, {h})
    && forall s: Ranking.Stream, f: Ranking.Filters :: f.cachedOnly && KeptOtherwise(s, f) ==>
         Drops(Reports([Asks({}, r)], hashes), s, f, h)
  }

  lemma {:induction false} OneStoreDrops(r: Replies, h: Hash)
    requires Hears(r, [h], 0) == Some(false) && !Covers(r, [h], 0)
    ensures DropsHeld(r, [h], h)
  {
    CheckedOne(r, h);
    var reports := Reports([Asks({}, r)], [h]);
    assert reports[0] == ReportOf(Asks({}, r), [h]);
    assert Says(reports[0], h, false);
    KnownNotCachedExactly(reports, h);
    assert TruthStores(reports, 0) == 0 && Heard(reports, 0) == 0;
    assert h in reports[0].answer.value;
    assert Filters(reports);
    forall s: Ranking.Stream, f: Ranking.Filters | f.cachedOnly && KeptOtherwise(s, f)
      ensures Drops(reports, s, f, h)
    {
      DropsExactly(reports, s, f, h);
    }
  }

  lemma {:induction false} CheckedOne(r: Replies, h: Hash)
    requires Hears(r, [h], 0) == Some(false)
    ensures Checked([h], {}, r) == Some(map[h := false])
  {
    var ask, heard := [h], HeardOf(r, [h]);
    assert Asking(ask, 0, {}) == [] && Told(ask, heard, 0) == map[];
    assert Asking(ask, 1, {}) == [] + [h] == ask;
    assert heard[0] == Some(false) && Told(ask, heard, 1) == map[h := false];
    assert (map g | g in [h] && g in {} :: true) + map[h := false] == map[h := false];
  }

  /** Premiumize answers a batch of one with an empty list. */
  lemma {:induction false} ShortListDropsHeld()
    ensures DropsHeld(Lists(k => Listed([])), ["h"], "h")
  {
    OneStoreDrops(Lists(k => Listed([])), "h");
  }

  /** TorBox answers a round of one with a body without `data`. */
  lemma {:induction false} NoDataDropsHeld()
    ensures DropsHeld(Rounds(k => Round(["h"], b => NoData)), ["h"], "h")
  {
    var r, all := Rounds(k => Round(["h"], b => NoData)), ["h"];
    AnswersAre(all, 1, r.rounds(0).bodies, "h");
    assert Asked(all, 1, r.rounds(0).bodies, "h") by {
      assert all[0] == "h";
    }
    SilenceReadsNo(r, all, 0);
    OneStoreDrops(r, "h");
  }

  function With(held: seq<Service>, service: Service, yes: bool): seq<Service> {
    if yes then held + [service] else held
  }

  /** The merge as it runs. */
  class Pool {
    var holders: map<Hash, seq<Service>>
    var votes: map<Hash, nat>
    var known: set<Hash>
    var complete: bool

    constructor ()
      ensures holders == map[] && votes == map[] && known == {} && !complete
    {
      holders, votes, known, complete := map[], map[], {}, false;
    }

    function HeldBy(h: Hash): seq<Service>
      reads this
    {
      if h in holders then holders[h] else []
    }

    function Voted(h: Hash): nat
      reads this
    {
      if h in votes then votes[h] else 0
    }

    /** One store's answer for one hash. */
    method CountOne(h: Hash, cached: bool, service: Service)
      modifies this`holders, this`votes
      ensures HeldBy(h) == With(old(HeldBy(h)), service, cached)
      ensures Voted(h) == old(Voted(h)) + One(CacheTruthService(service))
      ensures forall g :: g != h ==> HeldBy(g) == old(HeldBy(g)) && Voted(g) == old(Voted(g))
    {
      if CacheTruthService(service) {
        votes := votes[h := Voted(h) + 1];
      }
      if cached {
        holders := holders[h := HeldBy(h) + [service]];
      }
    }

    /** One store's map, hash by hash. */
    method Count(answer: map<Hash, bool>, service: Service)
      modifies this`holders, this`votes
      ensures forall h :: HeldBy(h) == With(old(HeldBy(h)), service, h in answer && answer[h])
      ensures forall h :: Voted(h) == old(Voted(h)) + One(h in answer && CacheTruthService(service))
    {
      var todo := answer.Keys;
      while todo != {}
        invariant todo <= answer.Keys
        invariant forall h <- todo :: HeldBy(h) == old(HeldBy(h)) && Voted(h) == old(Voted(h))
        invariant forall h :: h !in answer ==> HeldBy(h) == old(HeldBy(h)) && Voted(h) == old(Voted(h))
        invariant forall h <- answer :: h !in todo ==> HeldBy(h) == With(old(HeldBy(h)), service, answer[h])
        invariant forall h <- answer :: h !in todo ==> Voted(h) == old(Voted(h)) + One(CacheTruthService(service))
        decreases todo
      {
        var h :| h in todo;
        CountOne(h, answer[h], service);
        todo := todo - {h};
      }
    }

    /** CacheCheck. `ok` is whether any cache-truth store answered at all; nothing to ask about is a complete answer. */
    method CacheCheck(hashes: seq<Hash>, reports: seq<Report>) returns (ok: bool)
      requires holders == map[] && votes == map[] && known == {}
      modifies this
      ensures |hashes| == 0 ==> complete && ok && known == {} && holders == map[]
      ensures |hashes| > 0 ==>
                (forall h :: HeldBy(h) == Holders(reports, |reports|, h) && (h in known <==> Known(reports, h)))
                && complete == Complete(reports) && ok == (Heard(reports, |reports|) > 0)
    {
      if |hashes| == 0 {
        complete := true;
        return true;
      }
      ok := Merge(reports);
    }

    /** The merge, once every store has reported. */
    method Merge(reports: seq<Report>) returns (ok: bool)
      requires holders == map[] && votes == map[] && known == {}
      modifies this
      ensures forall h :: HeldBy(h) == Holders(reports, |reports|, h)
      ensures forall h :: h in known <==> Known(reports, h)
      ensures complete == Complete(reports) && ok == (Heard(reports, |reports|) > 0)
    {
      var truthStores, heard := 0, 0;
      for i := 0 to |reports|
        invariant forall h :: HeldBy(h) == Holders(reports, i, h) && Voted(h) == Votes(reports, i, h)
        invariant truthStores == TruthStores(reports, i) && heard == Heard(reports, i)
      {
        var r := reports[i];
        if CacheTruthService(r.service) {
          truthStores := truthStores + 1;
        }
        if r.answer.Some? && r.answer.value != map[] {
          Count(r.answer.value, r.service);
          if CacheTruthService(r.service) {
            heard := heard + 1;
          }
        }
        forall h ensures HeldBy(h) == Holders(reports, i + 1, h) && Voted(h) == Votes(reports, i + 1, h) {
          MergeRound(reports, i, h);
        }
      }
      known := set h | h in votes && votes[h] > 0 && (HeldBy(h) != [] || votes[h] == truthStores);
      forall h ensures h in known <==> Known(reports, h) {
        assert HeldBy(h) == Holders(reports, |reports|, h) && Voted(h) == Votes(reports, |reports|, h);
      }
      complete := heard == truthStores;
      ok := heard > 0;
    }
  }

  lemma {:induction false} MergeRound(reports: seq<Report>, i: nat, h: Hash)
    requires i < |reports|
    ensures var r := reports[i];
            Holders(reports, i + 1, h)
            == With(Holders(reports, i, h), r.service, AnswersFor(r, h) && r.answer.value[h])
            && Votes(reports, i + 1, h)
               == Votes(reports, i, h) + One(AnswersFor(r, h) && CacheTruthService(r.service))
  {
  }
}
