// The list of keys, most recently used first, that the in-memory caches keep beside their maps
// (internal/scout/cache.go, internal/scout/linkmemo.go).
module Recency {

  ghost predicate Distinct(order: seq<string>) {
    forall i :: 0 <= i < |order| ==> NewAt(order, i)
  }

  ghost predicate NewAt(order: seq<string>, i: int)
    requires 0 <= i < |order|
  {
    forall j :: 0 <= j < i ==> order[j] != order[i]
  }

  lemma {:induction false} NotBefore(order: seq<string>, at: nat)
    requires Distinct(order) && at < |order|
    ensures order[at] !in order[..at]
  {
    assert NewAt(order, at);
  }

  lemma {:induction false} DistinctPrefix(order: seq<string>, n: nat)
    requires Distinct(order) && n <= |order|
    ensures Distinct(order[..n])
  {
    forall i | 0 <= i < n ensures NewAt(order[..n], i) {
      assert NewAt(order, i);
    }
  }

  /** The first n keys, less one. */
  function Without(order: seq<string>, n: nat, key: string): seq<string>
    requires n <= |order|
  {
    if n == 0 then []
    else if order[n - 1] == key then Without(order, n - 1, key)
    else Without(order, n - 1, key) + [order[n - 1]]
  }

  function Touched(order: seq<string>, key: string): seq<string> {
    [key] + Without(order, |order|, key)
  }

  lemma {:induction false} WithoutAbsent(order: seq<string>, n: nat, key: string)
    requires n <= |order| && key !in order[..n]
    ensures Without(order, n, key) == order[..n]
  {
    if n > 0 {
      assert order[..n] == order[..n - 1] + [order[n - 1]];
      WithoutAbsent(order, n - 1, key);
    }
  }

  /** Removing a key from where it stands leaves the others in order. */
  lemma {:induction false} WithoutAt(order: seq<string>, n: nat, at: nat)
    requires at < n <= |order| && Distinct(order)
    ensures Without(order, n, order[at]) == order[..at] + order[at + 1..n]
  {
    if at == n - 1 {
      NotBefore(order, at);
      WithoutAbsent(order, at, order[at]);
    } else {
      WithoutAt(order, n - 1, at);
      assert NewAt(order, n - 1);
      assert order[at + 1..n] == order[at + 1..n - 1] + [order[n - 1]];
    }
  }

  lemma {:induction false} WithoutHolds(order: seq<string>, n: nat, key: string)
    requires n <= |order| && Distinct(order)
    ensures var w := Without(order, n, key);
            Distinct(w) && |w| <= n && (forall k :: k in w <==> k in order[..n] && k != key)
  {
    if n > 0 {
      WithoutHolds(order, n - 1, key);
      NotBefore(order, n - 1);
      assert order[..n] == order[..n - 1] + [order[n - 1]];
      if order[n - 1] != key {
        DistinctPlus(Without(order, n - 1, key), order[n - 1]);
      }
    }
  }

  lemma {:induction false} DistinctPlus(order: seq<string>, key: string)
    requires Distinct(order) && key !in order
    ensures Distinct(order + [key])
  {
    forall i | 0 <= i <= |order| ensures NewAt(order + [key], i) {
      if i < |order| {
        assert NewAt(order, i);
      }
    }
  }

  lemma {:induction false} TouchedHolds(order: seq<string>, key: string)
    requires Distinct(order)
    ensures var t := Touched(order, key);
            Distinct(t) && (forall k :: k in t <==> k in order || k == key)
            && |t| == |order| + if key in order then 0 else 1
  {
    var t, rest := Touched(order, key), Without(order, |order|, key);
    WithoutHolds(order, |order|, key);
    assert order[..|order|] == order;
    forall i | 0 <= i < |t| ensures NewAt(t, i) {
      if i > 0 {
        assert NewAt(rest, i - 1) && rest[i - 1] in rest;
      }
    }
    if key in order {
      var at :| 0 <= at < |order| && order[at] == key;
      WithoutAt(order, |order|, at);
    } else {
      WithoutAbsent(order, |order|, key);
    }
  }

  // ---- by last use ----

  /** Every key before place i was used later than the one there. */
  ghost predicate FallsAt(order: seq<string>, used: string -> int, i: int)
    requires 0 <= i < |order|
  {
    forall j :: 0 <= j < i ==> used(order[j]) > used(order[i])
  }

  /** The keys stand by when they were last used, the latest first. */
  ghost predicate ByUse(order: seq<string>, used: string -> int) {
    forall i :: 0 <= i < |order| ==> FallsAt(order, used, i)
  }

  lemma {:induction false} PlusByUse(order: seq<string>, used: string -> int, key: string)
    requires ByUse(order, used) && forall k <- order :: used(k) > used(key)
    ensures ByUse(order + [key], used)
  {
    forall i | 0 <= i <= |order| ensures FallsAt(order + [key], used, i) {
      if i < |order| {
        assert FallsAt(order, used, i);
      }
    }
  }

  lemma {:induction false} WithoutByUse(order: seq<string>, used: string -> int, n: nat, key: string)
    requires n <= |order| && ByUse(order, used)
    ensures ByUse(Without(order, n, key), used) && forall k <- Without(order, n, key) :: k in order[..n] && k != key
  {
    if n > 0 {
      WithoutByUse(order, used, n - 1, key);
      assert order[..n] == order[..n - 1] + [order[n - 1]];
      assert FallsAt(order, used, n - 1);
      if order[n - 1] != key {
        PlusByUse(Without(order, n - 1, key), used, order[n - 1]);
      }
    }
  }

  lemma {:induction false} PrefixByUse(order: seq<string>, used: string -> int, n: nat)
    requires n <= |order| && ByUse(order, used)
    ensures ByUse(order[..n], used)
  {
    forall i | 0 <= i < n ensures FallsAt(order[..n], used, i) {
      assert FallsAt(order, used, i);
    }
  }

  lemma {:induction false} SameByUse(order: seq<string>, used: string -> int, since: string -> int)
    requires ByUse(order, used) && forall k <- order :: since(k) == used(k)
    ensures ByUse(order, since)
  {
    forall i | 0 <= i < |order| ensures FallsAt(order, since, i) {
      assert FallsAt(order, used, i);
    }
  }

  /** A key used after all others goes to the front. */
  lemma {:induction false} TouchedByUse(order: seq<string>, used: string -> int, since: string -> int, key: string)
    requires ByUse(order, used) && forall k <- order :: k != key ==> since(k) == used(k) < since(key)
    ensures ByUse(Touched(order, key), since)
  {
    var rest, t := Without(order, |order|, key), Touched(order, key);
    WithoutByUse(order, used, |order|, key);
    assert order[..|order|] == order;
    SameByUse(rest, used, since);
    forall i | 0 <= i < |t| ensures FallsAt(t, since, i) {
      if i > 0 {
        assert FallsAt(rest, since, i - 1) && rest[i - 1] in rest;
      }
    }
  }

  /** Whatever a prefix leaves out was used before all it keeps. */
  lemma {:induction false} LeftOutByUse(order: seq<string>, used: string -> int, n: nat, gone: string, stays: string)
    requires n <= |order| && ByUse(order, used) && stays in order[..n] && gone in order && gone !in order[..n]
    ensures used(gone) < used(stays)
  {
    var i :| 0 <= i < n && order[..n][i] == stays;
    assert order == order[..n] + order[n..];
    var j :| 0 <= j < |order[n..]| && order[n..][j] == gone;
    assert FallsAt(order, used, n + j);
  }

  method Remove(order: seq<string>, key: string) returns (rest: seq<string>)
    requires Distinct(order)
    ensures rest == Without(order, |order|, key)
  {
    for i := 0 to |order|
      invariant key !in order[..i]
    {
      if order[i] == key {
        WithoutAt(order, |order|, i);
        return order[..i] + order[i + 1..];
      }
    }
    WithoutAbsent(order, |order|, key);
    rest := order;
  }
}
