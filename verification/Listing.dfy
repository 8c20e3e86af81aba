// Reading the account listing token by token (internal/scout/stores.go). The JSON decoder is library code: a body is
// the tokens it yields and then how it ends.
module Listing {
  import opened Common

  const MAX_SKIP_DEPTH := 64
  const MAX_ENTRIES: nat := 50_000
  const MIN_HASH: nat := 32
  const MAX_HASH: nat := 40

  datatype Tok =
    | OpenObject | CloseObject | OpenArray | CloseArray
    | Text(s: string) | Whole(n: int) | Fraction | Truth(b: bool) | Null

  /** After its tokens a body stops short, or says something that is not JSON. */
  datatype End = Eof | Malformed

  /** A fault worth remembering; anything else is retried at once. */
  datatype Fault = NoFault | BadEnvelope | TooManyEntries | NoUsableEntries

  function FaultFor(end: End): Fault {
    if end.Eof? then NoFault else BadEnvelope
  }

  function Delta(t: Tok): int {
    if t.OpenObject? || t.OpenArray? then 1 else if t.CloseObject? || t.CloseArray? then -1 else 0
  }

  /** Is there another key or element at i? Not at a closing token, and not where the body ends. */
  predicate More(s: seq<Tok>, len: nat, i: nat)
    requires len <= |s|
  {
    i < len && Delta(s[i]) >= 0
  }

  /** Where the value being read at i, `depth` deep, ends. The decoder refuses a closing token where a value is due. */
  function After(s: seq<Tok>, len: nat, i: nat, depth: int): (j: Option<nat>)
    requires len <= |s|
    ensures j.Some? ==> i < j.value <= len
    decreases len - i
  {
    if i >= len then None
    else
      var d := depth + Delta(s[i]);
      if d < 0 then None else if d == 0 then Some(i + 1) else After(s, len, i + 1, d)
  }

  datatype Skipped = Done(next: nat) | TooDeep | Broken

  /** skipValue: the same, but no deeper than 64. */
  function Skip(s: seq<Tok>, len: nat, i: nat, depth: int): (r: Skipped)
    requires len <= |s|
    ensures r.Done? ==> i < r.next <= len
    decreases len - i
  {
    if i >= len then Broken
    else
      var d := depth + Delta(s[i]);
      if Delta(s[i]) == 1 && d > MAX_SKIP_DEPTH then TooDeep
      else if d < 0 then Broken
      else if d == 0 then Done(i + 1)
      else Skip(s, len, i + 1, d)
  }

  datatype Entry = Entry(id: int, hash: string)

  /** An entry's fields from k on, within a value that ends at j: None when one has the wrong type. */
  function Fields(s: seq<Tok>, k: nat, j: nat, e: Entry): Option<Entry>
    requires j <= |s|
    decreases j - k
  {
    if k + 2 >= j then Some(e)
    else
      var next := After(s, j, k + 1, 0);
      if next.None? then Some(e)
      else if s[k] == Text("id") && !s[k + 1].Null? then
        if s[k + 1].Whole? then Fields(s, next.value, j, e.(id := s[k + 1].n)) else None
      else if s[k] == Text("hash") && !s[k + 1].Null? then
        if s[k + 1].Text? then Fields(s, next.value, j, e.(hash := s[k + 1].s)) else None
      else Fields(s, next.value, j, e)
  }

  /** The element at i, which ends at j: an object, or a null that carries nothing. */
  function Element(s: seq<Tok>, i: nat, j: nat): Option<Entry>
    requires i < j <= |s|
  {
    if s[i].Null? then Some(Entry(0, ""))
    else if s[i].OpenObject? then Fields(s, i + 1, j, Entry(0, ""))
    else None
  }

  /** The listing so far with one more entry, if its hash could ever be asked about. */
  function Kept(ids: map<string, int>, e: Entry, lower: string -> string): map<string, int> {
    if |e.hash| > 4 * MAX_HASH then ids
    else
      var hash := lower(e.hash);
      if MIN_HASH <= |hash| <= MAX_HASH then ids[hash := e.id] else ids
  }

  datatype Scan = Stopped(fault: Fault) | Closed(next: nat, ids: map<string, int>, seen: nat)

  /** The data array from element i on, to its closing token. */
  function Entries(s: seq<Tok>, len: nat, i: nat, end: End, ids: map<string, int>, seen: nat, lower: string -> string)
    : (r: Scan)
    requires len <= |s|
    ensures r.Closed? ==> i < r.next <= len
    decreases len - i
  {
    if !More(s, len, i) then
      if i >= len || !s[i].CloseArray? then Stopped(NoFault)
      else if seen > 0 && ids == map[] then Stopped(NoUsableEntries)
      else Closed(i + 1, ids, seen)
    else match After(s, len, i, 0)
      case None => Stopped(FaultFor(end))
      case Some(j) =>
        match Element(s, i, j)
        case None => Stopped(BadEnvelope)
        case Some(e) =>
          if seen + 1 > MAX_ENTRIES then Stopped(TooManyEntries)
          else Entries(s, len, j, end, Kept(ids, e, lower), seen + 1, lower)
  }

  /** What the envelope has said so far. */
  datatype State = State(success: bool, sawData: bool, ids: Option<map<string, int>>, seen: nat)

  /** The listing with the entries it came from and the tokens read, or why there is none. */
  datatype Outcome = Read(ids: map<string, int>, seen: nat, consumed: nat) | Failed(fault: Fault)

  function Envelope(s: seq<Tok>, len: nat, i: nat, end: End, st: State, lower: string -> string)
    : (r: Outcome)
    requires len <= |s|
    ensures r.Read? ==> i < r.consumed <= len
    decreases len - i
  {
    if !More(s, len, i) then
      if i >= len || !s[i].CloseObject? then Failed(NoFault)
      else if st.ids.None? || !st.success then Failed(BadEnvelope)
      else Read(st.ids.value, st.seen, i + 1)
    else if !s[i].Text? then Failed(NoFault)
    else if s[i] == Text("success") then
      match After(s, len, i + 1, 0)
      case None => Failed(FaultFor(end))
      case Some(j) =>
        if s[i + 1].Truth? then Envelope(s, len, j, end, st.(success := s[i + 1].b), lower)
        else if s[i + 1].Null? then Envelope(s, len, j, end, st, lower)
        else Failed(BadEnvelope)
    else if s[i] == Text("data") then
      if st.sawData || !More(s, len, i + 1) then Failed(NoFault)
      else if s[i + 1].Null? then Envelope(s, len, i + 2, end, st.(sawData := true), lower)
      else if !s[i + 1].OpenArray? then Failed(BadEnvelope)
      else match Entries(s, len, i + 2, end, map[], 0, lower)
        case Stopped(fault) => Failed(fault)
        case Closed(next, ids, seen) => Envelope(s, len, next, end, State(st.success, true, Some(ids), seen), lower)
    else match Skip(s, len, i + 1, 0)
      case Done(j) => Envelope(s, len, j, end, st, lower)
      case TooDeep => Failed(BadEnvelope)
      case Broken => Failed(NoFault)
  }

  /** decodeListing of the first `len` tokens. */
  function Decoded(s: seq<Tok>, len: nat, end: End, lower: string -> string): Outcome
    requires len <= |s|
  {
    if len == 0 || !s[0].OpenObject? then Failed(NoFault)
    else Envelope(s, len, 1, end, State(true, false, None, 0), lower)
  }

  // ---- truncation is never an answer ----

  lemma {:induction false} AfterCut(s: seq<Tok>, len: nat, cut: nat, i: nat, depth: int)
    requires cut <= len <= |s| && After(s, len, i, depth).Some?
    ensures var j := After(s, len, i, depth).value; After(s, cut, i, depth) == if j <= cut then Some(j) else None
    decreases len - i
  {
    if i < cut && depth + Delta(s[i]) != 0 {
      AfterCut(s, len, cut, i + 1, depth + Delta(s[i]));
    }
  }

  lemma {:induction false} SkipCut(s: seq<Tok>, len: nat, cut: nat, i: nat, depth: int)
    requires cut <= len <= |s| && Skip(s, len, i, depth).Done?
    ensures var j := Skip(s, len, i, depth).next; Skip(s, cut, i, depth) == if j <= cut then Done(j) else Broken
    decreases len - i
  {
    if i < cut && depth + Delta(s[i]) != 0 {
      SkipCut(s, len, cut, i + 1, depth + Delta(s[i]));
    }
  }

  lemma {:induction false} EntriesCut(s: seq<Tok>, len: nat, cut: nat, i: nat, end: End, ids: map<string, int>,
                                      seen: nat, lower: string -> string)
    requires i <= cut <= len <= |s| && Entries(s, len, i, end, ids, seen, lower).Closed?
    ensures var r := Entries(s, len, i, end, ids, seen, lower);
            Entries(s, cut, i, Eof, ids, seen, lower) == if r.next <= cut then r else Stopped(NoFault)
    decreases len - i
  {
    if i < cut && More(s, len, i) {
      var j := After(s, len, i, 0).value;
      AfterCut(s, len, cut, i, 0);
      if j <= cut {
        EntriesCut(s, len, cut, j, end, Kept(ids, Element(s, i, j).value, lower), seen + 1, lower);
      }
    }
  }

  lemma {:induction false} EnvelopeCut(s: seq<Tok>, len: nat, cut: nat, i: nat, end: End, st: State,
                                       lower: string -> string)
    requires i <= cut <= len <= |s| && Envelope(s, len, i, end, st, lower).Read?
    ensures var r := Envelope(s, len, i, end, st, lower);
            Envelope(s, cut, i, Eof, st, lower) == if r.consumed <= cut then r else Failed(NoFault)
    decreases len - i, 1
  {
    if i < cut && More(s, len, i) {
      if s[i] == Text("success") {
        var j := After(s, len, i + 1, 0).value;
        AfterCut(s, len, cut, i + 1, 0);
        if j <= cut {
          EnvelopeCut(s, len, cut, j, end, if s[i + 1].Truth? then st.(success := s[i + 1].b) else st, lower);
        }
      } else if s[i] == Text("data") {
        DataCut(s, len, cut, i, end, st, lower);
      } else {
        var j := Skip(s, len, i + 1, 0).next;
        SkipCut(s, len, cut, i + 1, 0);
        if j <= cut {
          EnvelopeCut(s, len, cut, j, end, st, lower);
        }
      }
    }
  }

  lemma {:induction false} DataStep(s: seq<Tok>, len: nat, i: nat, end: End, st: State, lower: string -> string)
    requires i + 1 < len <= |s| && s[i] == Text("data") && s[i + 1].OpenArray? && !st.sawData
    ensures Envelope(s, len, i, end, st, lower)
            == match Entries(s, len, i + 2, end, map[], 0, lower)
               case Stopped(fault) => Failed(fault)
               case Closed(next, ids, seen) =>
                 Envelope(s, len, next, end, State(st.success, true, Some(ids), seen), lower)
  {
  }

  lemma {:induction false} DataCut(s: seq<Tok>, len: nat, cut: nat, i: nat, end: End, st: State,
                                   lower: string -> string)
    requires i < cut <= len <= |s| && Envelope(s, len, i, end, st, lower).Read?
    requires More(s, len, i) && s[i] == Text("data")
    ensures var r := Envelope(s, len, i, end, st, lower);
            Envelope(s, cut, i, Eof, st, lower) == if r.consumed <= cut then r else Failed(NoFault)
    decreases len - i, 0
  {
    if i + 1 < cut {
      if s[i + 1].Null? {
        EnvelopeCut(s, len, cut, i + 2, end, st.(sawData := true), lower);
      } else {
        DataStep(s, len, i, end, st, lower);
        var r := Entries(s, len, i + 2, end, map[], 0, lower);
        var read := State(st.success, true, Some(r.ids), r.seen);
        EntriesCut(s, len, cut, i + 2, end, map[], 0, lower);
        DataStep(s, cut, i, Eof, st, lower);
        assert Envelope(s, len, i, end, st, lower) == Envelope(s, len, r.next, end, read, lower);
        if r.next <= cut {
          EnvelopeCut(s, len, cut, r.next, end, read, lower);
        }
      }
    }
  }

  /** Cut a body that reads as a listing anywhere before the end of its object, and it reads as nothing, to be fetched
      again at once. Whatever follows the object changes nothing. */
  lemma {:induction false} TruncationIsRetried(s: seq<Tok>, end: End, cut: nat, lower: string -> string)
    requires cut <= |s| && Decoded(s, |s|, end, lower).Read?
    ensures var r := Decoded(s, |s|, end, lower);
            Decoded(s, cut, Eof, lower) == if r.consumed <= cut then r else Failed(NoFault)
  {
    if cut > 0 {
      EnvelopeCut(s, |s|, cut, 1, end, State(true, false, None, 0), lower);
    }
  }

  // ---- only a closed object is read ----

  /** What is left open around a value does not move its end. */
  lemma {:induction false} AfterShifts(s: seq<Tok>, len: nat, i: nat, depth: nat, around: nat)
    requires len <= |s| && around > 0 && After(s, len, i, depth).Some?
    ensures After(s, len, i, depth + around) == After(s, len, After(s, len, i, depth).value, around)
    decreases len - i
  {
    var d := depth + Delta(s[i]);
    if d != 0 {
      AfterShifts(s, len, i + 1, d, around);
    }
  }

  lemma {:induction false} SkipAfter(s: seq<Tok>, len: nat, i: nat, depth: int)
    requires len <= |s| && Skip(s, len, i, depth).Done?
    ensures After(s, len, i, depth) == Some(Skip(s, len, i, depth).next)
    decreases len - i
  {
    var d := depth + Delta(s[i]);
    if d != 0 {
      SkipAfter(s, len, i + 1, d);
    }
  }

  lemma {:induction false} EntriesClose(s: seq<Tok>, len: nat, i: nat, end: End, ids: map<string, int>, seen: nat,
                                        lower: string -> string)
    requires len <= |s| && Entries(s, len, i, end, ids, seen, lower).Closed?
    ensures After(s, len, i, 1) == Some(Entries(s, len, i, end, ids, seen, lower).next)
    decreases len - i
  {
    if More(s, len, i) {
      var j := After(s, len, i, 0).value;
      AfterShifts(s, len, i, 0, 1);
      EntriesClose(s, len, j, end, Kept(ids, Element(s, i, j).value, lower), seen + 1, lower);
    }
  }

  // ---- the members of the object ----

  /** The member after the one whose key is at i. */
  function Next(s: seq<Tok>, len: nat, i: nat): (j: Option<nat>)
    requires len <= |s|
    ensures j.Some? ==> i < j.value <= len
  {
    if More(s, len, i) then After(s, len, i + 1, 0) else None
  }

  /** Where the keys called `data` are, from the member at i on. */
  function DataKeys(s: seq<Tok>, len: nat, i: nat): seq<nat>
    requires len <= |s|
    decreases len - i
  {
    match Next(s, len, i)
    case None => []
    case Some(j) => if s[i] == Text("data") then [i] + DataKeys(s, len, j) else DataKeys(s, len, j)
  }

  /** What the last `success` that is not null says, or what was said before. */
  function LastSuccess(s: seq<Tok>, len: nat, i: nat, before: bool): bool
    requires len <= |s|
    decreases len - i
  {
    match Next(s, len, i)
    case None => before
    case Some(j) =>
      LastSuccess(s, len, j, if s[i] == Text("success") && s[i + 1].Truth? then s[i + 1].b else before)
  }

  /** A listing is what one data array held, to its closing token. */
  predicate FromArray(s: seq<Tok>, len: nat, k: nat, end: End, ids: map<string, int>, seen: nat,
                      lower: string -> string)
    requires len <= |s|
  {
    var r := Entries(s, len, k, end, map[], 0, lower); r.Closed? && r.ids == ids && r.seen == seen
  }

  /** The only `data` from i on, and an array that holds the listing. */
  ghost predicate OneData(s: seq<Tok>, len: nat, i: nat, end: End, ids: map<string, int>, seen: nat,
                          lower: string -> string)
    requires len <= |s|
  {
    exists k: nat :: DataKeys(s, len, i) == [k] && k + 1 < len && s[k + 1].OpenArray?
                     && FromArray(s, len, k + 2, end, ids, seen, lower)
  }

  /** What an envelope that is read from i on says, when so much was said before. */
  ghost predicate Means(s: seq<Tok>, len: nat, i: nat, end: End, st: State, r: Outcome, lower: string -> string)
    requires len <= |s|
  {
    r.Read? ==>
      After(s, len, i, 1) == Some(r.consumed) && LastSuccess(s, len, i, st.success) && SuccessTyped(s, len, i)
      && if st.sawData then DataKeys(s, len, i) == [] && st.ids == Some(r.ids) && st.seen == r.seen
         else OneData(s, len, i, end, r.ids, r.seen, lower)
  }

  /** A member other than `data` is passed over by where its value ends. */
  lemma {:induction false} MeansStep(s: seq<Tok>, len: nat, i: nat, end: End, st: State, r: Outcome,
                                     lower: string -> string)
    requires len <= |s| && More(s, len, i) && s[i].Text? && s[i] != Text("data") && Next(s, len, i).Some?
    requires s[i] == Text("success") ==> s[i + 1].Truth? || s[i + 1].Null?
    requires var said := s[i] == Text("success") && s[i + 1].Truth?;
             Means(s, len, Next(s, len, i).value, end, if said then st.(success := s[i + 1].b) else st, r, lower)
    ensures Means(s, len, i, end, st, r, lower)
  {
    AfterShifts(s, len, i + 1, 0, 1);
    assert DataKeys(s, len, i) == DataKeys(s, len, Next(s, len, i).value);
  }

  lemma {:induction false} EnvelopeMeans(s: seq<Tok>, len: nat, i: nat, end: End, st: State, lower: string -> string)
    requires len <= |s| && (st.sawData || st.ids.None?)
    ensures Means(s, len, i, end, st, Envelope(s, len, i, end, st, lower), lower)
    decreases len - i, 1
  {
    var r := Envelope(s, len, i, end, st, lower);
    if More(s, len, i) && r.Read? {
      if s[i] == Text("success") {
        var j := After(s, len, i + 1, 0).value;
        EnvelopeMeans(s, len, j, end, if s[i + 1].Truth? then st.(success := s[i + 1].b) else st, lower);
        MeansStep(s, len, i, end, st, r, lower);
      } else if s[i] == Text("data") {
        DataMeans(s, len, i, end, st, lower);
      } else {
        SkipAfter(s, len, i + 1, 0);
        EnvelopeMeans(s, len, Next(s, len, i).value, end, st, lower);
        MeansStep(s, len, i, end, st, r, lower);
      }
    }
  }

  lemma {:induction false} DataMeans(s: seq<Tok>, len: nat, i: nat, end: End, st: State, lower: string -> string)
    requires len <= |s| && (st.sawData || st.ids.None?) && More(s, len, i) && s[i] == Text("data")
    requires Envelope(s, len, i, end, st, lower).Read?
    ensures Means(s, len, i, end, st, Envelope(s, len, i, end, st, lower), lower)
    decreases len - i, 0
  {
    var r := Envelope(s, len, i, end, st, lower);
    if s[i + 1].Null? {
      var saw := st.(sawData := true);
      EnvelopeMeans(s, len, i + 2, end, saw, lower);
    } else {
      var data := Entries(s, len, i + 2, end, map[], 0, lower);
      EntriesClose(s, len, i + 2, end, map[], 0, lower);
      assert Next(s, len, i) == Some(data.next);
      AfterShifts(s, len, i + 1, 0, 1);
      EnvelopeMeans(s, len, data.next, end, State(st.success, true, Some(data.ids), data.seen), lower);
      assert DataKeys(s, len, i) == [i];
      assert FromArray(s, len, i + 2, end, r.ids, r.seen, lower);
    }
  }

  /** Every `success` is a boolean or null. */
  predicate SuccessTyped(s: seq<Tok>, len: nat, i: nat)
    requires len <= |s|
    decreases len - i
  {
    match Next(s, len, i)
    case None => true
    case Some(j) => (s[i] == Text("success") ==> s[i + 1].Truth? || s[i + 1].Null?) && SuccessTyped(s, len, j)
  }

  /** Only one complete object is an answer, with a single `data`, which is an array, booleans or nulls for `success`, and a
      last word on it that is not false. */
  lemma {:induction false} ReadMeans(s: seq<Tok>, len: nat, end: End, lower: string -> string)
    requires len <= |s|
    ensures var r := Decoded(s, len, end, lower);
            r.Read? ==> After(s, len, 0, 0) == Some(r.consumed) && LastSuccess(s, len, 1, true)
                        && SuccessTyped(s, len, 1) && OneData(s, len, 1, end, r.ids, r.seen, lower)
  {
    EnvelopeMeans(s, len, 1, end, State(true, false, None, 0), lower);
  }

  // ---- truncation is never an answer ----

  /** What a cut leaves of a body: the tokens so far, and perhaps a number cut short, so each of them opens and closes
      what it did. */
  ghost predicate CutOf(t: seq<Tok>, s: seq<Tok>) {
    |t| <= |s| && forall i :: 0 <= i < |t| ==> Delta(t[i]) == Delta(s[i])
  }

  lemma {:induction false} AfterOfCut(t: seq<Tok>, s: seq<Tok>, i: nat, depth: int)
    requires CutOf(t, s) && After(t, |t|, i, depth).Some?
    ensures After(s, |s|, i, depth) == After(t, |t|, i, depth)
    decreases |t| - i
  {
    var d := depth + Delta(t[i]);
    if d != 0 {
      AfterOfCut(t, s, i + 1, d);
    }
  }

  /** Truncation is never an answer. Whatever a body says, and whatever it would go on to say: cut it anywhere, within a
      number too, and it reads as a listing only if the whole object is there, to the token that closes it. */
  lemma {:induction false} TruncationIsNeverAnAnswer(s: seq<Tok>, t: seq<Tok>, end: End, lower: string -> string)
    requires CutOf(t, s)
    ensures var r := Decoded(t, |t|, end, lower); r.Read? ==> After(s, |s|, 0, 0) == Some(r.consumed) && r.consumed <= |t|
  {
    ReadMeans(t, |t|, end, lower);
    if Decoded(t, |t|, end, lower).Read? {
      AfterOfCut(t, s, 0, 0);
    }
  }

  // ---- what a listing says ----

  /** No more than 50,000 entries arrived, and no hash kept could not be asked about. */
  ghost predicate Plausible(ids: map<string, int>, seen: nat) {
    seen <= MAX_ENTRIES && (forall h <- ids :: MIN_HASH <= |h| <= MAX_HASH)
  }

  lemma {:induction false} KeptPlausible(ids: map<string, int>, seen: nat, e: Entry, lower: string -> string)
    requires Plausible(ids, seen) && seen < MAX_ENTRIES
    ensures Plausible(Kept(ids, e, lower), seen + 1)
  {
  }

  lemma {:induction false} EntriesPlausible(s: seq<Tok>, len: nat, i: nat, end: End, ids: map<string, int>, seen: nat,
                                            lower: string -> string)
    requires len <= |s| && Plausible(ids, seen)
    ensures var r := Entries(s, len, i, end, ids, seen, lower); r.Closed? ==> Settled(r.ids, r.seen)
    decreases len - i
  {
    if More(s, len, i) {
      var j := After(s, len, i, 0);
      if j.Some? {
        var e := Element(s, i, j.value);
        if e.Some? && seen < MAX_ENTRIES {
          KeptPlausible(ids, seen, e.value, lower);
          EntriesPlausible(s, len, j.value, end, Kept(ids, e.value, lower), seen + 1, lower);
        }
      }
    }
  }

  /** No more hashes are kept than entries arrived. */
  lemma {:induction false} EntriesFew(s: seq<Tok>, len: nat, i: nat, end: End, ids: map<string, int>, seen: nat,
                                      lower: string -> string)
    requires len <= |s| && |ids| <= seen
    ensures var r := Entries(s, len, i, end, ids, seen, lower); r.Closed? ==> |r.ids| <= r.seen
    decreases len - i
  {
    if More(s, len, i) {
      var j := After(s, len, i, 0);
      if j.Some? {
        var e := Element(s, i, j.value);
        if e.Some? && seen < MAX_ENTRIES {
          KeptOneMore(ids, e.value, lower);
          EntriesFew(s, len, j.value, end, Kept(ids, e.value, lower), seen + 1, lower);
        }
      }
    }
  }

  lemma {:induction false} KeptOneMore(ids: map<string, int>, e: Entry, lower: string -> string)
    ensures |Kept(ids, e, lower)| <= |ids| + 1
  {
  }

  /** And a closed array is empty only if no entry arrived. */
  ghost predicate Settled(ids: map<string, int>, seen: nat) {
    Plausible(ids, seen) && (ids == map[] ==> seen == 0)
  }

  lemma {:induction false} ArrayPlausible(s: seq<Tok>, len: nat, k: nat, end: End, ids: map<string, int>, seen: nat,
                                          lower: string -> string)
    requires len <= |s| && FromArray(s, len, k, end, ids, seen, lower)
    ensures Settled(ids, seen) && |ids| <= seen
  {
    EntriesPlausible(s, len, k, end, map[], 0, lower);
    EntriesFew(s, len, k, end, map[], 0, lower);
  }

  /** Exactly what is kept of an entry: its id under its hash in lower case, when that has 32 to 40 characters; a hash of
      over 160 is not looked at, which could not lower to so few. */
  lemma {:induction false} KeptExactly(ids: map<string, int>, e: Entry, lower: string -> string, h: string)
    ensures var after, askable := Kept(ids, e, lower), |e.hash| <= 160 && 32 <= |lower(e.hash)| <= 40;
            (h in after <==> h in ids || (askable && h == lower(e.hash)))
            && (h in after ==> after[h] == if askable && h == lower(e.hash) then e.id else ids[h])
  {
  }

  /** The field after the one whose key is at k, in a value that ends at j; none when no whole field is left. */
  function NextField(s: seq<Tok>, k: nat, j: nat): (next: Option<nat>)
    requires j <= |s|
    ensures next.Some? ==> k + 1 < next.value <= j
  {
    if k + 2 < j then After(s, j, k + 1, 0) else None
  }

  /** Every `id` is a whole number or null, and every `hash` a text or null. */
  predicate WellTyped(s: seq<Tok>, k: nat, j: nat)
    requires j <= |s|
    decreases j - k
  {
    match NextField(s, k, j)
    case None => true
    case Some(next) =>
      (s[k] == Text("id") ==> s[k + 1].Whole? || s[k + 1].Null?)
      && (s[k] == Text("hash") ==> s[k + 1].Text? || s[k + 1].Null?) && WellTyped(s, next, j)
  }

  /** The last `id` that is not null, and the last such `hash`. */
  function LastId(s: seq<Tok>, k: nat, j: nat, before: int): int
    requires j <= |s|
    decreases j - k
  {
    match NextField(s, k, j)
    case None => before
    case Some(next) => LastId(s, next, j, if s[k] == Text("id") && s[k + 1].Whole? then s[k + 1].n else before)
  }

  function LastHash(s: seq<Tok>, k: nat, j: nat, before: string): string
    requires j <= |s|
    decreases j - k
  {
    match NextField(s, k, j)
    case None => before
    case Some(next) => LastHash(s, next, j, if s[k] == Text("hash") && s[k + 1].Text? then s[k + 1].s else before)
  }

  lemma {:induction false} FieldsMean(s: seq<Tok>, k: nat, j: nat, e: Entry)
    requires j <= |s|
    ensures Fields(s, k, j, e)
            == if WellTyped(s, k, j) then Some(Entry(LastId(s, k, j, e.id), LastHash(s, k, j, e.hash))) else None
    decreases j - k
  {
    match NextField(s, k, j)
    case None =>
    case Some(next) =>
      FieldsMean(s, next, j, e);
      if s[k] == Text("id") && s[k + 1].Whole? {
        FieldsMean(s, next, j, e.(id := s[k + 1].n));
      }
      if s[k] == Text("hash") && s[k + 1].Text? {
        FieldsMean(s, next, j, e.(hash := s[k + 1].s));
      }
  }

  /** What an entry says: an object whose fields have the right types says the last id and hash in it, 0 and nothing where
      there is none; a null says as little; anything else is not one. */
  lemma {:induction false} EntryMeans(s: seq<Tok>, i: nat, j: nat)
    requires i < j <= |s|
    ensures Element(s, i, j)
            == if s[i].OpenObject? && WellTyped(s, i + 1, j) then
                 Some(Entry(LastId(s, i + 1, j, 0), LastHash(s, i + 1, j, "")))
               else if s[i].Null? then Some(Entry(0, "")) else None
  {
    FieldsMean(s, i + 1, j, Entry(0, ""));
  }

  /** An authoritative listing has at most 50,000 hashes, each of a length
      that can be asked about, and is empty only if no entry arrived at all. */
  lemma {:induction false} EmptyMeansNothingArrived(s: seq<Tok>, end: End, lower: string -> string)
    ensures var r := Decoded(s, |s|, end, lower);
            r.Read? ==> |r.ids| <= r.seen <= MAX_ENTRIES && (r.ids == map[] <==> r.seen == 0)
                        && forall h <- r.ids :: MIN_HASH <= |h| <= MAX_HASH
  {
    var r := Decoded(s, |s|, end, lower);
    if r.Read? {
      ReadMeans(s, |s|, end, lower);
      var k: nat :| DataKeys(s, |s|, 1) == [k] && FromArray(s, |s|, k + 2, end, r.ids, r.seen, lower);
      ArrayPlausible(s, |s|, k + 2, end, r.ids, r.seen, lower);
    }
  }

  // ---- a listing as TorBox writes it ----

  predicate EntryAt(s: seq<Tok>, p: nat, e: Entry) {
    p + 6 <= |s|
    && s[p] == OpenObject && s[p + 1] == Text("id") && s[p + 2] == Whole(e.id)
    && s[p + 3] == Text("hash") && s[p + 4] == Text(e.hash) && s[p + 5] == CloseObject
  }

  /** `{"success":true,"data":[{"id":…,"hash":…},…]}` */
  ghost predicate Written(s: seq<Tok>, entries: seq<Entry>) {
    var n := |entries|;
    |s| == 7 + 6 * n
    && s[0] == OpenObject && s[1] == Text("success") && s[2] == Truth(true) && s[3] == Text("data")
    && s[4] == OpenArray && EntriesAt(s, entries) && s[6 + 6 * n] == CloseObject
  }

  /** The hashes of the first n entries that can be asked about; the last of a hash wins. */
  function Collected(entries: seq<Entry>, n: nat, lower: string -> string): map<string, int>
    requires n <= |entries|
  {
    if n == 0 then map[] else Kept(Collected(entries, n - 1, lower), entries[n - 1], lower)
  }

  lemma {:induction false} ReadsEntry(s: seq<Tok>, len: nat, p: nat, e: Entry)
    requires EntryAt(s, p, e) && p + 6 <= len <= |s|
    ensures More(s, len, p) && After(s, len, p, 0) == Some(p + 6) && Element(s, p, p + 6) == Some(e)
  {
    assert After(s, len, p + 5, 1) == Some(p + 6);
    assert After(s, len, p + 4, 1) == Some(p + 6) && After(s, len, p + 3, 1) == Some(p + 6);
    assert After(s, len, p + 2, 1) == Some(p + 6) && After(s, len, p + 1, 1) == Some(p + 6);
    var j := p + 6;
    assert After(s, j, p + 2, 0) == Some(p + 3) && After(s, j, p + 4, 0) == Some(p + 5);
    assert Fields(s, p + 5, j, e) == Some(e);
    assert Fields(s, p + 3, j, Entry(e.id, "")) == Some(e);
  }

  lemma {:induction false} EntryStep(s: seq<Tok>, end: End, p: nat, e: Entry, ids: map<string, int>, seen: nat,
                                     lower: string -> string)
    requires EntryAt(s, p, e) && seen < MAX_ENTRIES
    ensures Entries(s, |s|, p, end, ids, seen, lower)
            == Entries(s, |s|, p + 6, end, Kept(ids, e, lower), seen + 1, lower)
  {
    ReadsEntry(s, |s|, p, e);
  }

  lemma {:induction false} CloseStep(s: seq<Tok>, end: End, p: nat, ids: map<string, int>, seen: nat,
                                     lower: string -> string)
    requires p < |s| && s[p] == CloseArray && (seen == 0 || ids != map[])
    ensures Entries(s, |s|, p, end, ids, seen, lower) == Closed(p + 1, ids, seen)
  {
  }

  /** The entries are there, one after another, and the array closes after them. */
  ghost predicate EntriesAt(s: seq<Tok>, entries: seq<Entry>) {
    5 + 6 * |entries| < |s| && s[5 + 6 * |entries|] == CloseArray
    && forall k :: 0 <= k < |entries| ==> EntryAt(s, 5 + 6 * k, entries[k])
  }

  /** What is left of the array, from entry k at p on, is read as this. */
  ghost predicate ReadsFrom(s: seq<Tok>, end: End, p: nat, ids: map<string, int>, k: nat, lower: string -> string,
                            all: map<string, int>, n: nat)
  {
    Entries(s, |s|, p, end, ids, k, lower) == Closed(6 + 6 * n, all, n)
  }

  lemma {:induction false} EntryAtPlace(s: seq<Tok>, entries: seq<Entry>, k: nat)
    requires EntriesAt(s, entries) && k < |entries|
    ensures EntryAt(s, 5 + 6 * k, entries[k])
  {
  }

  lemma {:induction false} EntryReads(s: seq<Tok>, end: End, p: nat, e: Entry, ids: map<string, int>, k: nat,
                                      lower: string -> string, all: map<string, int>, n: nat)
    requires EntryAt(s, p, e) && k < MAX_ENTRIES && ReadsFrom(s, end, p + 6, Kept(ids, e, lower), k + 1, lower, all, n)
    ensures ReadsFrom(s, end, p, ids, k, lower, all, n)
  {
    EntryStep(s, end, p, e, ids, k, lower);
  }

  lemma {:induction false} ReadsEntries(s: seq<Tok>, end: End, entries: seq<Entry>, k: nat, p: nat,
                                        ids: map<string, int>, lower: string -> string, all: map<string, int>)
    requires EntriesAt(s, entries) && k <= |entries| <= MAX_ENTRIES && p == 5 + 6 * k
    requires ids == Collected(entries, k, lower)
    requires all == Collected(entries, |entries|, lower) && (|entries| == 0 || all != map[])
    ensures ReadsFrom(s, end, p, ids, k, lower, all, |entries|)
    decreases |entries| - k
  {
    if k == |entries| {
      CloseStep(s, end, p, ids, k, lower);
    } else {
      CollectedStep(entries, k, lower);
      ReadsEntries(s, end, entries, k + 1, p + 6, Kept(ids, entries[k], lower), lower, all);
      EntryAtPlace(s, entries, k);
      EntryReads(s, end, p, entries[k], ids, k, lower, all, |entries|);
    }
  }

  lemma {:induction false} CollectedStep(entries: seq<Entry>, k: nat, lower: string -> string)
    requires k < |entries|
    ensures Collected(entries, k + 1, lower) == Kept(Collected(entries, k, lower), entries[k], lower)
  {
  }

  /** The reader inverts the writer: a whole listing of up to 50,000 entries, some usable if there are any, is read to
      its end as exactly the hashes that can be asked about. */
  lemma {:induction false} ReadsWritten(s: seq<Tok>, end: End, entries: seq<Entry>, lower: string -> string)
    requires Written(s, entries) && |entries| <= MAX_ENTRIES
    requires |entries| == 0 || Collected(entries, |entries|, lower) != map[]
    ensures Decoded(s, |s|, end, lower) == Read(Collected(entries, |entries|, lower), |entries|, |s|)
  {
    ReadsEntries(s, end, entries, 0, 5, map[], lower, Collected(entries, |entries|, lower));
    var st := State(true, true, Some(Collected(entries, |entries|, lower)), |entries|);
    assert Envelope(s, |s|, 6 + 6 * |entries|, end, st, lower) == Read(st.ids.value, st.seen, |s|);
    assert Envelope(s, |s|, 3, end, State(true, false, None, 0), lower) == Read(st.ids.value, st.seen, |s|);
    assert After(s, |s|, 2, 0) == Some(3);
  }

  /** A null `success` says nothing, one that is no boolean is a fault to remember, and a null `data` is no listing. */
  lemma {:induction false} SmallBodies(end: End, v: Tok, lower: string -> string)
    requires Delta(v) == 0
    ensures var s := [OpenObject, Text("success"), v, Text("data"), OpenArray, CloseArray, CloseObject];
            Decoded(s, 7, end, lower) == if v.Null? || v == Truth(true) then Read(map[], 0, 7) else Failed(BadEnvelope)
    ensures var s := [OpenObject, Text("data"), Null, CloseObject]; Decoded(s, 4, end, lower) == Failed(BadEnvelope)
  {
    SmallBody(end, v, lower);
    var s, st := [OpenObject, Text("data"), Null, CloseObject], State(true, true, None, 0);
    assert Envelope(s, 4, 3, end, st, lower) == Failed(BadEnvelope);
    assert Envelope(s, 4, 1, end, State(true, false, None, 0), lower) == Envelope(s, 4, 3, end, st, lower);
  }

  lemma {:induction false} SmallBody(end: End, v: Tok, lower: string -> string)
    requires Delta(v) == 0
    ensures var s := [OpenObject, Text("success"), v, Text("data"), OpenArray, CloseArray, CloseObject];
            Decoded(s, 7, end, lower) == if v.Null? || v == Truth(true) then Read(map[], 0, 7) else Failed(BadEnvelope)
  {
    var s := [OpenObject, Text("success"), v, Text("data"), OpenArray, CloseArray, CloseObject];
    var success := v == Truth(true) || v.Null?;
    assert After(s, 7, 2, 0) == Some(3);
    assert Entries(s, 7, 5, end, map[], 0, lower) == Closed(6, map[], 0);
    assert Envelope(s, 7, 6, end, State(success, true, Some(map[]), 0), lower)
        == if success then Read(map[], 0, 7) else Failed(BadEnvelope);
    assert Envelope(s, 7, 3, end, State(success, false, None, 0), lower)
        == Envelope(s, 7, 6, end, State(success, true, Some(map[]), 0), lower);
  }

  /** How deep a value read at i gets before it ends. */
  function Deepest(s: seq<Tok>, len: nat, i: nat, depth: int): int
    requires len <= |s|
    decreases len - i
  {
    if i >= len then depth
    else
      var d := depth + Delta(s[i]);
      if d == 0 then 0 else Max(d, Deepest(s, len, i + 1, d))
  }

  /** Skipping is bounded: it finds where the value ends exactly when that lies within the body and the value is nested
      no deeper than 64; deeper, it says so, and a body that stops first is one to fetch again. */
  lemma {:induction false} SkipExactly(s: seq<Tok>, len: nat, i: nat, depth: int)
    requires len <= |s| && depth <= MAX_SKIP_DEPTH
    ensures var deep := Deepest(s, len, i, depth) > MAX_SKIP_DEPTH;
            Skip(s, len, i, depth)
            == if deep then TooDeep
               else if After(s, len, i, depth).Some? then Done(After(s, len, i, depth).value)
               else Broken
    decreases len - i
  {
    if i < len {
      var d := depth + Delta(s[i]);
      if d != 0 && d <= MAX_SKIP_DEPTH {
        SkipExactly(s, len, i + 1, d);
      }
    }
  }

  // ---- the decoder as it runs ----

  lemma {:induction false} EntriesNext(s: seq<Tok>, len: nat, i: nat, end: End, ids: map<string, int>, seen: nat,
                                       lower: string -> string)
    requires len <= |s| && More(s, len, i)
    ensures Entries(s, len, i, end, ids, seen, lower)
            == match After(s, len, i, 0)
               case None => Stopped(FaultFor(end))
               case Some(j) =>
                 match Element(s, i, j)
                 case None => Stopped(BadEnvelope)
                 case Some(e) =>
                   if seen + 1 > MAX_ENTRIES then Stopped(TooManyEntries)
                   else Entries(s, len, j, end, Kept(ids, e, lower), seen + 1, lower)
  {
  }

  class Decoder {
    const toks: seq<Tok>
    const end: End
    var pos: nat

    constructor (toks: seq<Tok>, end: End)
      ensures this.toks == toks && this.end == end && pos == 0
    {
      this.toks, this.end, pos := toks, end, 0;
    }

    /** skipValue, one token at a time. */
    method SkipValue() returns (r: Skipped)
      modifies this`pos
      ensures r == Skip(toks, |toks|, old(pos), 0) && (r.Done? ==> pos == r.next)
    {
      var depth := 0;
      while pos < |toks|
        invariant Skip(toks, |toks|, pos, depth) == Skip(toks, |toks|, old(pos), 0)
        decreases |toks| - pos
      {
        var t := toks[pos];
        pos := pos + 1;
        if t.OpenObject? || t.OpenArray? {
          depth := depth + 1;
          if depth > MAX_SKIP_DEPTH {
            return TooDeep;
          }
        } else if t.CloseObject? || t.CloseArray? {
          depth := depth - 1;
          if depth < 0 {
            return Broken;
          }
        }
        if depth == 0 {
          return Done(pos);
        }
      }
      r := Broken;
    }

    /** Decode: consumes the value at pos, and tells where it began. */
    method Decode() returns (from: Option<nat>)
      modifies this`pos
      ensures var j := After(toks, |toks|, old(pos), 0);
              if j.None? then from.None? else from == Some(old(pos)) && pos == j.value
    {
      var start, depth := pos, 0;
      while pos < |toks|
        invariant start <= pos && After(toks, |toks|, pos, depth) == After(toks, |toks|, start, 0)
        decreases |toks| - pos
      {
        depth := depth + Delta(toks[pos]);
        if depth < 0 {
          return None;
        }
        pos := pos + 1;
        if depth == 0 {
          return Some(start);
        }
      }
      from := None;
    }

    /** The loop over the data array. */
    method DecodeEntries(lower: string -> string) returns (r: Scan)
      modifies this`pos
      ensures r == Entries(toks, |toks|, old(pos), end, map[], 0, lower) && (r.Closed? ==> pos == r.next)
    {
      ghost var start := pos;
      var ids, seen := map[], 0;
      while More(toks, |toks|, pos)
        invariant start <= pos
        invariant Entries(toks, |toks|, pos, end, ids, seen, lower)
               == Entries(toks, |toks|, start, end, map[], 0, lower)
        decreases |toks| - pos
      {
        EntriesNext(toks, |toks|, pos, end, ids, seen, lower);
        var from := Decode();
        if from.None? {
          return Stopped(FaultFor(end));
        }
        var e := Element(toks, from.value, pos);
        if e.None? {
          return Stopped(BadEnvelope);
        }
        seen := seen + 1;
        if seen > MAX_ENTRIES {
          return Stopped(TooManyEntries);
        }
        ids := Kept(ids, e.value, lower);
      }
      if pos >= |toks| || !toks[pos].CloseArray? {
        return Stopped(NoFault);
      }
      pos := pos + 1;
      if seen > 0 && ids == map[] {
        return Stopped(NoUsableEntries);
      }
      r := Closed(pos, ids, seen);
    }

    /** decodeListing. */
    method DecodeListing(lower: string -> string) returns (r: Outcome)
      requires pos == 0
      modifies this`pos
      ensures r == Decoded(toks, |toks|, end, lower) && (r.Read? ==> pos == r.consumed)
    {
      if |toks| == 0 || !toks[0].OpenObject? {
        return Failed(NoFault);
      }
      pos := 1;
      var st := State(true, false, None, 0);
      while More(toks, |toks|, pos)
        invariant Envelope(toks, |toks|, pos, end, st, lower) == Decoded(toks, |toks|, end, lower)
        decreases |toks| - pos
      {
        var key := toks[pos];
        pos := pos + 1;
        if !key.Text? {
          return Failed(NoFault);
        }
        if key == Text("success") {
          var from := Decode();
          if from.None? {
            return Failed(FaultFor(end));
          }
          var v := toks[from.value];
          if v.Truth? {
            st := st.(success := v.b);
          } else if !v.Null? {
            return Failed(BadEnvelope);
          }
        } else if key == Text("data") {
          if st.sawData {
            return Failed(NoFault);
          }
          st := st.(sawData := true);
          if !More(toks, |toks|, pos) {
            return Failed(NoFault);
          }
          var open := toks[pos];
          pos := pos + 1;
          if open.Null? {
            continue;
          }
          if !open.OpenArray? {
            return Failed(BadEnvelope);
          }
          var data := DecodeEntries(lower);
          if data.Stopped? {
            return Failed(data.fault);
          }
          st := State(st.success, true, Some(data.ids), data.seen);
        } else {
          var skipped := SkipValue();
          if !skipped.Done? {
            return Failed(if skipped.TooDeep? then BadEnvelope else NoFault);
          }
        }
      }
      if pos >= |toks| || !toks[pos].CloseObject? {
        return Failed(NoFault);
      }
      pos := pos + 1;
      if st.ids.None? || !st.success {
        return Failed(BadEnvelope);
      }
      r := Read(st.ids.value, st.seen, pos);
    }
  }
}
