// Joining the cache checks of concurrent lists into few TorBox requests (internal/scout/stores.go).
module CheckBatcher {
  import opened Common

  const BATCH: nat := 100
  const MAX_DEMANDS: nat := 64

  type Hash = string

  /** What one list asks. */
  type Demand = seq<Hash>

  /** What it is told: an answer for some of its hashes, and whether for all. */
  datatype Reply = Reply(cached: map<Hash, bool>, ok: bool)

  // ---- one request ----

  /** What a request came back with: nothing usable; a body without `data`; or data, naming the hashes TorBox holds (in
      either case of letter). */
  datatype Body = Failed | NoData | Data(names: set<Hash>)

  /** What each request of a hundred hashes came back with. */
  type Bodies = nat -> Body

  predicate Named(b: Body, h: Hash) {
    b.Data? && h in b.names
  }

  /** What asking alone tells, when it works and TorBox names what it holds. */
  function Direct(hashes: seq<Hash>, truth: set<Hash>): map<Hash, bool> {
    map h | h in hashes :: h in truth
  }

  function Hashes(demand: Demand): set<Hash> { set h | h in demand }

  function Union(demands: seq<Demand>, n: nat): set<Hash>
    requires n <= |demands|
  {
    if n == 0 then {} else Union(demands, n - 1) + Hashes(demands[n - 1])
  }

  /** The answers once the first n of all hashes were asked about: fetchCached reads every body as an answer for each of
      its hashes, one without `data` too. */
  function Answers(all: seq<Hash>, n: nat, bodies: Bodies): map<Hash, bool>
    requires n <= |all|
  {
    if n == 0 then map[]
    else
      var body := bodies((n - 1) / BATCH);
      if body.Failed? then Answers(all, n - 1, bodies)
      else Answers(all, n - 1, bodies)[all[n - 1] := Named(body, all[n - 1])]
  }

  function ReplyTo(demand: Demand, answers: map<Hash, bool>): Reply {
    Reply(map h | h in demand && h in answers :: answers[h], forall h <- demand :: h in answers)
  }

  /** A request that worked asked about this hash. */
  ghost predicate Asked(all: seq<Hash>, n: nat, bodies: Bodies, h: Hash)
    requires n <= |all|
  {
    exists i :: 0 <= i < n && all[i] == h && !bodies(i / 100).Failed?
  }

  /** And its body had data, so that it says something of the hash. */
  ghost predicate Carried(all: seq<Hash>, n: nat, bodies: Bodies, h: Hash)
    requires n <= |all|
  {
    exists i :: 0 <= i < n && all[i] == h && bodies(i / 100).Data?
  }

  /** No hash is asked about in two requests. */
  ghost predicate AskedOnce(all: seq<Hash>) {
    forall i, j :: 0 <= i < j < |all| && all[i] == all[j] ==> i / 100 == j / 100
  }

  /** What the bodies with data say is so. */
  ghost predicate Honest(all: seq<Hash>, bodies: Bodies, truth: set<Hash>) {
    forall i :: 0 <= i < |all| && bodies(i / 100).Data? ==> (Named(bodies(i / 100), all[i]) <==> all[i] in truth)
  }

  /** One request's word for a hash. */
  ghost predicate Said(all: seq<Hash>, n: nat, bodies: Bodies, h: Hash, yes: bool)
    requires n <= |all|
  {
    exists i :: 0 <= i < n && all[i] == h && !bodies(i / 100).Failed? && Named(bodies(i / 100), h) == yes
  }

  lemma {:induction false} AnswersAre(all: seq<Hash>, n: nat, bodies: Bodies, h: Hash)
    requires n <= |all|
    ensures var answers := Answers(all, n, bodies);
            (h in answers <==> Asked(all, n, bodies, h)) && (h in answers ==> Said(all, n, bodies, h, answers[h]))
  {
    if n > 0 {
      AnswersAre(all, n - 1, bodies, h);
      var before, answers := Answers(all, n - 1, bodies), Answers(all, n, bodies);
      if h in before {
        var i :| 0 <= i < n - 1 && all[i] == h && !bodies(i / BATCH).Failed? && Named(bodies(i / BATCH), h) == before[h];
        assert Asked(all, n, bodies, h) && Said(all, n, bodies, h, before[h]);
      }
      if all[n - 1] == h && !bodies((n - 1) / BATCH).Failed? {
        assert Asked(all, n, bodies, h) && Said(all, n, bodies, h, answers[h]);
      }
    }
  }

  /** A yes is always carried; and so is a no exactly when the body that answered had data. */
  lemma {:induction false} WordsCarried(all: seq<Hash>, bodies: Bodies, truth: set<Hash>, h: Hash, yes: bool)
    requires Said(all, |all|, bodies, h, yes)
    ensures yes ==> Carried(all, |all|, bodies, h)
    ensures Honest(all, bodies, truth) && yes ==> h in truth
    ensures Honest(all, bodies, truth) && AskedOnce(all) && Carried(all, |all|, bodies, h) ==> yes == (h in truth)
  {
    var i :| 0 <= i < |all| && all[i] == h && !bodies(i / BATCH).Failed? && Named(bodies(i / BATCH), h) == yes;
    if AskedOnce(all) && Carried(all, |all|, bodies, h) {
      var j :| 0 <= j < |all| && all[j] == h && bodies(j / BATCH).Data?;
      assert i / BATCH == j / BATCH;
    }
  }

  /** Batching preserves meaning. Whatever else was asked in the same batch and whatever the requests came back with: a
      list hears of exactly its hashes that a working request asked about, so a failure is never told as "not cached";
      every yes is true, and so is every no out of a body with data; it is told it has everything exactly when none of
      its hashes was in a failed request only, and if those bodies had data it has what asking alone would have told. */
  lemma {:induction false} BatchingPreservesMeaning(all: seq<Hash>, bodies: Bodies, truth: set<Hash>, demand: Demand)
    requires AskedOnce(all) && Honest(all, bodies, truth)
    ensures var r := ReplyTo(demand, Answers(all, |all|, bodies));
            (forall h :: h in r.cached <==> h in demand && Asked(all, |all|, bodies, h))
            && (forall h <- r.cached :: r.cached[h] ==> h in truth)
            && (forall h <- r.cached :: Carried(all, |all|, bodies, h) ==> r.cached[h] == (h in truth))
            && (r.ok <==> forall h <- demand :: Asked(all, |all|, bodies, h))
            && (r.ok && (forall h <- demand :: Carried(all, |all|, bodies, h)) ==> r.cached == Direct(demand, truth))
  {
    var answers := Answers(all, |all|, bodies);
    forall h ensures h in answers <==> Asked(all, |all|, bodies, h) {
      AnswersAre(all, |all|, bodies, h);
    }
    forall h | h in answers
      ensures answers[h] ==> h in truth
      ensures Carried(all, |all|, bodies, h) ==> answers[h] == (h in truth)
    {
      AnswersAre(all, |all|, bodies, h);
      WordsCarried(all, bodies, truth, h, answers[h]);
    }
  }

  /** The least that could be so: what was named, and one hash besides. */
  ghost function NamedAnd(all: seq<Hash>, bodies: Bodies, h: Hash): (truth: set<Hash>)
    ensures h in truth
    ensures forall g :: g in truth && g != h ==> exists i :: 0 <= i < |all| && all[i] == g && Named(bodies(i / BATCH), g)
    ensures forall i :: 0 <= i < |all| && Named(bodies(i / BATCH), all[i]) ==> all[i] in truth
  {
    {h} + set i | 0 <= i < |all| && Named(bodies(i / BATCH), all[i]) :: all[i]
  }

  /** A body without `data` says nothing and is told as a no. So a list can trust all it is told, whatever TorBox holds,
      if and only if all of it came out of bodies with data. */
  lemma {:induction false} ToldTrulyExactly(all: seq<Hash>, bodies: Bodies, demand: Demand)
    requires AskedOnce(all)
    ensures var r := ReplyTo(demand, Answers(all, |all|, bodies));
            (forall truth: set<Hash> :: Honest(all, bodies, truth) ==> forall h <- r.cached :: r.cached[h] == (h in truth))
            <==> forall h <- r.cached :: Carried(all, |all|, bodies, h)
  {
    var r := ReplyTo(demand, Answers(all, |all|, bodies));
    forall truth: set<Hash>, h: Hash | Honest(all, bodies, truth) && h in r.cached
      ensures Carried(all, |all|, bodies, h) ==> r.cached[h] == (h in truth)
    {
      AnswersAre(all, |all|, bodies, h);
      WordsCarried(all, bodies, truth, h, r.cached[h]);
    }
    if h :| h in r.cached && !Carried(all, |all|, bodies, h) {
      AnswersAre(all, |all|, bodies, h);
      WordsCarried(all, bodies, {}, h, r.cached[h]);
      var truth := NamedAnd(all, bodies, h);
      HonestWith(all, bodies, h);
      assert Honest(all, bodies, truth) && r.cached[h] != (h in truth);
    }
  }

  lemma {:induction false} HonestWith(all: seq<Hash>, bodies: Bodies, h: Hash)
    requires AskedOnce(all) && !Carried(all, |all|, bodies, h)
    ensures Honest(all, bodies, NamedAnd(all, bodies, h))
  {
    var truth := NamedAnd(all, bodies, h);
    forall i | 0 <= i < |all| && bodies(i / BATCH).Data? && all[i] in truth
      ensures Named(bodies(i / BATCH), all[i])
    {
      assert all[i] != h;
      var j :| 0 <= j < |all| && all[j] == all[i] && Named(bodies(j / BATCH), all[i]);
      assert i / BATCH == j / BATCH;
    }
  }

  /** And when every body has data every list has everything, as if it had asked alone. */
  lemma {:induction false} NothingMissing(demands: seq<Demand>, all: seq<Hash>, bodies: Bodies, truth: set<Hash>, i: nat)
    requires i < |demands| && (forall h :: h in all <==> h in Union(demands, |demands|)) && AskedOnce(all)
    requires Honest(all, bodies, truth) && forall k: nat :: bodies(k).Data?
    ensures ReplyTo(demands[i], Answers(all, |all|, bodies)) == Reply(Direct(demands[i], truth), true)
  {
    forall h | h in demands[i] ensures Asked(all, |all|, bodies, h) && Carried(all, |all|, bodies, h) {
      InUnion(demands, |demands|, i, h);
      var k :| 0 <= k < |all| && all[k] == h;
      assert bodies(k / BATCH).Data?;
    }
    BatchingPreservesMeaning(all, bodies, truth, demands[i]);
  }

  lemma {:induction false} InUnion(demands: seq<Demand>, n: nat, i: nat, h: Hash)
    requires i < n <= |demands| && h in demands[i]
    ensures h in Union(demands, n)
  {
    if i < n - 1 {
      InUnion(demands, n - 1, i, h);
    }
  }

  // ---- one batcher's life ----

  /** A batcher: what waits in its channel, what it has taken, and whether lists can still find it. */
  datatype Life = Life(queue: seq<Demand>, taken: seq<Demand>, open: bool)

  const BORN := Life([], [], true)

  /** A list finds the batcher and its channel has room; the batcher takes one while it collects; or, its window over or
      its hands full, it empties the channel as far as it may and is found no more. */
  datatype Act = Offer(demand: Demand) | Take | Drain

  predicate Accepts(l: Life) {
    l.open && |l.queue| < MAX_DEMANDS
  }

  function Step(l: Life, act: Act): Life {
    match act
    case Offer(d) => if Accepts(l) then l.(queue := l.queue + [d]) else l
    case Take =>
      if l.open && |l.queue| > 0 && |l.taken| < MAX_DEMANDS
      then l.(queue := l.queue[1..], taken := l.taken + [l.queue[0]]) else l
    case Drain =>
      if !l.open then l
      else
        var n := Min(MAX_DEMANDS - |l.taken|, |l.queue|);
        if n < 0 then l.(open := false) else Life(l.queue[n..], l.taken + l.queue[..n], false)
  }

  function Lived(acts: seq<Act>, n: nat): Life
    requires n <= |acts|
  {
    if n == 0 then BORN else Step(Lived(acts, n - 1), acts[n - 1])
  }

  /** The demands accepted by the first n acts, in order. */
  function Accepted(acts: seq<Act>, n: nat): seq<Demand>
    requires n <= |acts|
  {
    if n == 0 then []
    else if acts[n - 1].Offer? && Accepts(Lived(acts, n - 1)) then Accepted(acts, n - 1) + [acts[n - 1].demand]
    else Accepted(acts, n - 1)
  }

  /** A batcher has taken the first of what it accepted and the rest waits; once closed, nothing waits unless its hands
      are full. */
  ghost predicate InOrder(l: Life, accepted: seq<Demand>) {
    l.taken + l.queue == accepted && |l.taken| <= MAX_DEMANDS
    && (l.open || |l.queue| == 0 || |l.taken| == MAX_DEMANDS)
  }

  lemma {:induction false} OfferKeeps(l: Life, accepted: seq<Demand>, d: Demand)
    requires InOrder(l, accepted)
    ensures InOrder(Step(l, Offer(d)), if Accepts(l) then accepted + [d] else accepted)
  {
    assert l.taken + (l.queue + [d]) == l.taken + l.queue + [d];
  }

  lemma {:induction false} TakeKeeps(l: Life, accepted: seq<Demand>)
    requires InOrder(l, accepted)
    ensures InOrder(Step(l, Take), accepted)
  {
    if |l.queue| > 0 {
      assert l.queue == [l.queue[0]] + l.queue[1..];
      assert l.taken + ([l.queue[0]] + l.queue[1..]) == (l.taken + [l.queue[0]]) + l.queue[1..];
    }
  }

  lemma {:induction false} DrainKeeps(l: Life, accepted: seq<Demand>)
    requires InOrder(l, accepted)
    ensures InOrder(Step(l, Drain), accepted)
  {
    var n := Min(MAX_DEMANDS - |l.taken|, |l.queue|);
    assert l.queue == l.queue[..n] + l.queue[n..];
    assert l.taken + (l.queue[..n] + l.queue[n..]) == (l.taken + l.queue[..n]) + l.queue[n..];
  }

  lemma {:induction false} LivedKeeps(acts: seq<Act>, n: nat)
    requires n <= |acts|
    ensures InOrder(Lived(acts, n), Accepted(acts, n))
  {
    if n > 0 {
      LivedKeeps(acts, n - 1);
      var l, accepted := Lived(acts, n - 1), Accepted(acts, n - 1);
      match acts[n - 1]
      case Offer(d) => OfferKeeps(l, accepted, d);
      case Take => TakeKeeps(l, accepted);
      case Drain => DrainKeeps(l, accepted);
    }
  }

  /** Every accepted demand is answered exactly when at most 64 were accepted: once the batcher is closed it answers the
      first 64 it accepted, in order, and leaves any other waiting for ever. */
  lemma {:induction false} AnswersTheFirst(acts: seq<Act>)
    requires !Lived(acts, |acts|).open
    ensures var accepted, taken := Accepted(acts, |acts|), Lived(acts, |acts|).taken;
            taken == accepted[..Min(64, |accepted|)]
            && (taken == accepted <==> |accepted| <= 64)
  {
    LivedKeeps(acts, |acts|);
    var l := Lived(acts, |acts|);
    assert (l.taken + l.queue)[..|l.taken|] == l.taken;
  }

  /** What each act does, exactly: a demand is accepted unless the batcher is gone or sixty-four wait; one that waits is
      taken, the first, unless sixty-four are in hand; and at the end all that fit are taken and the batcher is gone. */
  lemma {:induction false} ActsExactly(acts: seq<Act>, n: nat)
    requires n < |acts|
    ensures var l, after := Lived(acts, n), Lived(acts, n + 1);
            match acts[n]
            case Offer(d) =>
              after == if l.open && |l.queue| < 64 then l.(queue := l.queue + [d]) else l
            case Take =>
              if l.open && |l.queue| > 0 && |l.taken| < 64 then
                after.open && [l.queue[0]] + after.queue == l.queue && after.taken == l.taken + [l.queue[0]]
              else after == l
            case Drain =>
              !after.open && after.taken + after.queue == l.taken + l.queue
              && (l.open ==> after.queue == [] || |after.taken| == 64)
    ensures |Lived(acts, n).queue| <= 64
  {
    LivedKeeps(acts, n);
    LivedKeeps(acts, n + 1);
    QueueBounded(acts, n);
    var l := Lived(acts, n);
    if acts[n].Drain? && l.open {
      DrainKeeps(l, Accepted(acts, n));
    }
  }

  lemma {:induction false} QueueBounded(acts: seq<Act>, n: nat)
    requires n <= |acts|
    ensures |Lived(acts, n).queue| <= 64
  {
    if n > 0 {
      QueueBounded(acts, n - 1);
    }
  }

  // ---- the batcher as it runs ----

  class Batcher {
    var queue: seq<Demand>
    var demands: seq<Demand>
    var open: bool

    constructor ()
      ensures Now() == BORN
    {
      queue, demands, open := [], [], true;
    }

    function Now(): Life
      reads this
    {
      Life(queue, demands, open)
    }

    /** demandCheckCached: sends unless the channel is full; a list refused asks alone. */
    method Send(demand: Demand) returns (accepted: bool)
      modifies this
      ensures accepted == Accepts(old(Now())) && Now() == Step(old(Now()), Offer(demand))
    {
      accepted := open && |queue| < MAX_DEMANDS;
      if accepted {
        queue := queue + [demand];
      }
    }

    /** The collecting loop's receive. */
    method Receive()
      modifies this
      ensures Now() == Step(old(Now()), Take)
    {
      if open && |queue| > 0 && |demands| < MAX_DEMANDS {
        demands, queue := demands + [queue[0]], queue[1..];
      }
    }

    /** The drain under the lock, and the end of being found. */
    method Close()
      requires open && |demands| <= MAX_DEMANDS
      modifies this
      ensures Now() == Step(old(Now()), Drain)
    {
      ghost var q, t := queue, demands;
      ghost var n := 0;
      while |demands| < MAX_DEMANDS && |queue| > 0
        invariant 0 <= n <= |q| && |demands| == |t| + n <= MAX_DEMANDS && open
        invariant queue == q[n..] && demands == t + q[..n]
        decreases |queue|
      {
        demands, queue := demands + [queue[0]], queue[1..];
        n := n + 1;
      }
      open := false;
    }
  }

  /** The hashes of all demands, each once, in some order. */
  method Join(demands: seq<Demand>) returns (all: seq<Hash>)
    ensures forall h :: h in all <==> h in Union(demands, |demands|)
    ensures forall i, j :: 0 <= i < j < |all| ==> all[i] != all[j]
  {
    var union: set<Hash> := {};
    for i := 0 to |demands|
      invariant union == Union(demands, i)
    {
      union := union + Hashes(demands[i]);
    }
    all := [];
    ghost var whole := union;
    while union != {}
      invariant forall h :: h in whole <==> h in union || h in all
      invariant forall h <- all :: h !in union
      invariant forall i, j :: 0 <= i < j < |all| ==> all[i] != all[j]
      decreases union
    {
      var h :| h in union;
      all := all + [h];
      union := union - {h};
    }
  }

  /** The requests, a hundred hashes each; one that fails adds nothing. */
  method AskAll(all: seq<Hash>, bodies: Bodies) returns (answers: map<Hash, bool>)
    ensures answers == Answers(all, |all|, bodies)
  {
    answers := map[];
    var start := 0;
    while start < |all|
      invariant 0 <= start && (start % BATCH == 0 || start >= |all|)
      invariant answers == Answers(all, Min(start, |all|), bodies)
    {
      var end := Min(start + BATCH, |all|);
      var body := bodies(start / BATCH);
      for i := start to end
        invariant body == bodies(start / BATCH) && answers == Answers(all, i, bodies)
      {
        assert i / BATCH == start / BATCH;
        if !body.Failed? {
          answers := answers[all[i] := Named(body, all[i])];
        }
      }
      start := start + BATCH;
    }
  }

  /** The answer to one demand. */
  method Tell(demand: Demand, answers: map<Hash, bool>) returns (reply: Reply)
    ensures reply == ReplyTo(demand, answers)
  {
    var cached, ok := map[], true;
    for i := 0 to |demand|
      invariant forall h :: h in cached <==> h in demand[..i] && h in answers
      invariant forall h <- cached :: cached[h] == answers[h]
      invariant ok == forall h <- demand[..i] :: h in answers
    {
      assert demand[..i + 1] == demand[..i] + [demand[i]];
      if demand[i] in answers {
        cached := cached[demand[i] := answers[demand[i]]];
      } else {
        ok := false;
      }
    }
    assert demand[..|demand|] == demand;
    reply := Reply(cached, ok);
  }

  /** The rest of the batcher's run: one joined round of requests, then a reply for every demand. */
  method AnswerEach(demands: seq<Demand>, bodies: Bodies) returns (ghost all: seq<Hash>, replies: seq<Reply>)
    ensures (forall h :: h in all <==> h in Union(demands, |demands|)) && AskedOnce(all)
    ensures |replies| == |demands|
    ensures forall i :: 0 <= i < |demands| ==> replies[i] == ReplyTo(demands[i], Answers(all, |all|, bodies))
  {
    var joined := Join(demands);
    all := joined;
    var answers := AskAll(joined, bodies);
    replies := [];
    for i := 0 to |demands|
      invariant |replies| == i
      invariant forall k :: 0 <= k < i ==> replies[k] == ReplyTo(demands[k], answers)
    {
      var reply := Tell(demands[i], answers);
      replies := replies + [reply];
    }
  }
}
