// Reading the boxes of an MP4 (internal/scout/probe_mp4.go; ISO/IEC 14496-12 section 4.2), and the writer the walk
// inverts.
module IsoBoxes {
  import opened Common
  import opened ByteRuns

  /** A box read: its four-byte type as a number, where its payload begins and where it ends. */
  datatype Box = Box(kind: nat, body: nat, end: nat)

  const TWO63: int := 0x8000_0000_0000_0000
  const TWO64: int := 0x1_0000_0000_0000_0000

  /** An unsigned 64-bit number, or the result of a 64-bit addition, as a signed one. */
  function Signed(x: int): int {
    (x + TWO63) % TWO64 - TWO63
  }

  function U32(buf: Bytes, p: nat): (x: nat)
    requires p + 4 <= |buf|
    ensures x < 0x1_0000_0000
  {
    var (a: nat, b: nat, c: nat, d: nat) := (buf[p], buf[p + 1], buf[p + 2], buf[p + 3]);
    0x100_0000 * a + 0x1_0000 * b + 0x100 * c + d
  }

  function U64(buf: Bytes, p: nat): (x: nat)
    requires p + 8 <= |buf|
    ensures x < TWO64
  {
    U32(buf, p) * 0x1_0000_0000 + U32(buf, p + 4)
  }

  /** The box at i of a window that ends at `len`: none where the walk stops. */
  function BoxAt(buf: Bytes, i: nat, len: nat): (r: Option<Box>)
    requires len <= |buf|
    ensures r.Some? ==> i < r.value.body <= r.value.end <= len
  {
    if i + 8 > len then None
    else
      var small := U32(buf, i);
      var kind := U32(buf, i + 4);
      if small == 1 && i + 16 > len then None
      else
        var body := if small == 1 then i + 16 else i + 8;
        var size := if small == 1 then Signed(U64(buf, i + 8)) else if small == 0 then len - i else small;
        var end := Signed(i + size);
        if size <= 0 || end > len || body > end then None else Some(Box(kind, body, end))
  }

  // As for EBML, the walk sees a window only through the box read at each place in it.

  type Reader = nat -> Option<Box>

  function Reading(buf: Bytes, len: nat): Reader
    requires len <= |buf|
  {
    (i: nat) => BoxAt(buf, i, len)
  }

  ghost predicate Forward(read: Reader, len: nat) {
    forall i: nat :: read(i).Some? ==> i < read(i).value.body <= read(i).value.end <= len
  }

  lemma {:induction false} ReadingIsForward(buf: Bytes, len: nat)
    requires len <= |buf|
    ensures Forward(Reading(buf, len), len)
  {
  }

  function BoxesFrom(read: Reader, i: nat, len: nat): seq<Box>
    requires Forward(read, len)
    decreases len - i
  {
    if read(i).None? then [] else [read(i).value] + BoxesFrom(read, read(i).value.end, len)
  }

  /** The first box of a type. */
  function FirstOf(boxes: seq<Box>, kind: nat): Option<Box> {
    if |boxes| == 0 then None else if boxes[0].kind == kind then Some(boxes[0]) else FirstOf(boxes[1..], kind)
  }

  /** A box of a type is found exactly when there is one, and it is the first. */
  lemma {:induction false} FirstOfExactly(boxes: seq<Box>, kind: nat)
    ensures match FirstOf(boxes, kind)
            case None => forall i :: 0 <= i < |boxes| ==> boxes[i].kind != kind
            case Some(b) => exists i :: 0 <= i < |boxes| && FirstAt(boxes, i, kind) && b == boxes[i]
  {
    if |boxes| > 0 {
      if boxes[0].kind == kind {
        assert FirstAt(boxes, 0, kind);
      } else {
        FirstOfExactly(boxes[1..], kind);
        match FirstOf(boxes[1..], kind)
        case None =>
          forall i | 0 <= i < |boxes| ensures boxes[i].kind != kind {
            assert i > 0 ==> boxes[1..][i - 1] == boxes[i];
          }
        case Some(b) =>
          var i :| 0 <= i < |boxes[1..]| && FirstAt(boxes[1..], i, kind) && b == boxes[1..][i];
          FirstLater(boxes, i, kind);
      }
    }
  }

  predicate FirstAt(boxes: seq<Box>, i: nat, kind: nat)
    requires i < |boxes|
  {
    boxes[i].kind == kind && forall j :: 0 <= j < i ==> boxes[j].kind != kind
  }

  lemma {:induction false} FirstLater(boxes: seq<Box>, i: nat, kind: nat)
    requires |boxes| > 0 && i < |boxes| - 1 && boxes[0].kind != kind && FirstAt(boxes[1..], i, kind)
    ensures FirstAt(boxes, i + 1, kind)
  {
    forall j | 0 <= j < i + 1 ensures boxes[j].kind != kind {
      assert j > 0 ==> boxes[1..][j - 1] == boxes[j];
    }
  }

  // ---- 64-bit arithmetic never makes a box ----

  /** The same with unbounded numbers and no sign. */
  function BoxAtUnbounded(buf: Bytes, i: nat, len: nat): Option<Box>
    requires len <= |buf|
  {
    if i + 8 > len then None
    else
      var small := U32(buf, i);
      if small == 1 && i + 16 > len then None
      else
        var body := if small == 1 then i + 16 else i + 8;
        var size := if small == 1 then U64(buf, i + 8) else if small == 0 then len - i else small;
        if i + size > len || body > i + size then None else Some(Box(U32(buf, i + 4), body, i + size))
  }

  /** A size that turns negative, or that overflows past the end, is only ever rejected: on any bytes the walk reads
      the box that unbounded arithmetic would. */
  lemma {:induction false} OverflowIsHarmless(buf: Bytes, i: nat, len: nat)
    requires i <= len <= |buf| < TWO63
    ensures BoxAt(buf, i, len) == BoxAtUnbounded(buf, i, len)
  {
    if i + 16 <= len {
      SignedIs(U64(buf, i + 8), i);
    }
  }

  lemma {:induction false} SignedIs(x: nat, i: nat)
    requires x < TWO64 && i < TWO63
    ensures Signed(x) == (if x < TWO63 then x else x - TWO64)
    ensures Signed(i + Signed(x)) == if x >= TWO63 || i + x < TWO63 then i + Signed(x) else i + x - TWO64
  {
  }

  // ---- the writer ----

  function Put32(x: nat): (b: Bytes)
    ensures |b| == 4
  {
    [x / 0x100_0000 % 256, x / 0x1_0000 % 256, x / 0x100 % 256, x % 256]
  }

  function Put64(x: nat): (b: Bytes)
    ensures |b| == 8
  {
    Put32(x / 0x1_0000_0000) + Put32(x % 0x1_0000_0000)
  }

  /** How a box says its size: in 32 bits, in 64, or by running to the end. */
  datatype Form = Short | Long | ToEnd

  datatype Written = Written(kind: nat, form: Form, payload: Bytes)

  function HeaderSize(b: Written): nat { if b.form == Long then 16 else 8 }

  function Length(b: Written): nat { HeaderSize(b) + |b.payload| }

  function Header(b: Written): (h: Bytes)
    ensures |h| == HeaderSize(b)
  {
    match b.form
    case Short => Put32(Length(b)) + Put32(b.kind)
    case Long => Put32(1) + Put32(b.kind) + Put64(Length(b))
    case ToEnd => Put32(0) + Put32(b.kind)
  }

  function Encoded(boxes: seq<Written>): (s: Bytes)
    ensures |s| == Total(boxes)
  {
    if |boxes| == 0 then [] else Header(boxes[0]) + (boxes[0].payload + Encoded(boxes[1..]))
  }

  function Total(boxes: seq<Written>): nat {
    if |boxes| == 0 then 0 else Length(boxes[0]) + Total(boxes[1..])
  }

  /** A type is four bytes, and a size fits its form. */
  predicate Fits(b: Written) {
    b.kind < 0x1_0000_0000
    && (b.form == Short ==> Length(b) < 0x1_0000_0000) && (b.form == Long ==> Length(b) < TWO63)
  }

  /** And only the last box runs to the end. */
  ghost predicate Writable(boxes: seq<Written>) {
    |boxes| == 0 || (Fits(boxes[0]) && (boxes[0].form == ToEnd ==> |boxes| == 1) && Writable(boxes[1..]))
  }

  /** What is read at p of a box written there: nothing once it reaches past the end, except for one that runs to it. */
  function SeenOf(b: Written, p: nat, len: nat): Option<Box> {
    var body := p + HeaderSize(b);
    var end := if b.form == ToEnd then len else p + Length(b);
    if body > len || end > len then None else Some(Box(b.kind, body, end))
  }

  /** The boxes of a window that ends at `len`. */
  function Seen(boxes: seq<Written>, p: nat, len: nat): seq<Box> {
    if |boxes| == 0 || SeenOf(boxes[0], p, len).None? then []
    else [SeenOf(boxes[0], p, len).value] + Seen(boxes[1..], p + Length(boxes[0]), len)
  }

  ghost predicate Sees(read: Reader, p: nat, len: nat, boxes: seq<Written>)
    decreases |boxes|
  {
    if |boxes| == 0 then read(p).None?
    else
      read(p) == SeenOf(boxes[0], p, len)
      && (read(p).Some? ==> Sees(read, read(p).value.end, len, boxes[1..]))
  }

  lemma {:induction false} Digits(x: nat)
    requires x < 0x1_0000_0000
    ensures 0x100_0000 * (x / 0x100_0000 % 256) + 0x1_0000 * (x / 0x1_0000 % 256) + 0x100 * (x / 0x100 % 256) + x % 256
            == x
  {
  }

  lemma {:induction false} ReadsU32(buf: Bytes, p: nat, x: nat)
    requires x < 0x1_0000_0000 && Spells(buf, p, Put32(x))
    ensures U32(buf, p) == x
  {
    var b := Put32(x);
    assert Same(buf, p, b, 0) && Same(buf, p, b, 1) && Same(buf, p, b, 2) && Same(buf, p, b, 3);
    Digits(x);
  }

  lemma {:induction false} ReadsU64(buf: Bytes, p: nat, x: nat)
    requires x < TWO64 && Spells(buf, p, Put64(x))
    ensures U64(buf, p) == x
  {
    SpellsParts(buf, p, Put32(x / 0x1_0000_0000), Put32(x % 0x1_0000_0000));
    ReadsU32(buf, p, x / 0x1_0000_0000);
    ReadsU32(buf, p + 4, x % 0x1_0000_0000);
  }

  /** The numbers of a header, as the writer put them. */
  lemma {:induction false} ReadsHeader(buf: Bytes, p: nat, b: Written)
    requires Spells(buf, p, Header(b)) && Fits(b)
    ensures U32(buf, p) == (if b.form == Short then Length(b) else if b.form == Long then 1 else 0)
            && U32(buf, p + 4) == b.kind
            && (b.form == Long ==> U64(buf, p + 8) == Length(b))
  {
    match b.form
    case Short =>
      SpellsParts(buf, p, Put32(Length(b)), Put32(b.kind));
      ReadsU32(buf, p, Length(b));
      ReadsU32(buf, p + 4, b.kind);
    case Long =>
      SpellsParts(buf, p, Put32(1) + Put32(b.kind), Put64(Length(b)));
      SpellsParts(buf, p, Put32(1), Put32(b.kind));
      ReadsU32(buf, p, 1);
      ReadsU32(buf, p + 4, b.kind);
      ReadsU64(buf, p + 8, Length(b));
    case ToEnd =>
      SpellsParts(buf, p, Put32(0), Put32(b.kind));
      ReadsU32(buf, p, 0);
      ReadsU32(buf, p + 4, b.kind);
  }

  lemma {:induction false} ReadsBox(buf: Bytes, p: nat, len: nat, b: Written)
    requires Spells(buf, p, Header(b)) && len <= |buf| < TWO63 && p <= len && Fits(b)
    requires b.form == ToEnd ==> len <= p + Length(b)
    ensures Reading(buf, len)(p) == SeenOf(b, p, len)
  {
    OverflowIsHarmless(buf, p, len);
    ReadsHeader(buf, p, b);
  }

  lemma {:induction false} SpellsBox(buf: Bytes, p: nat, boxes: seq<Written>)
    requires |boxes| > 0 && Spells(buf, p, Encoded(boxes))
    ensures Spells(buf, p, Header(boxes[0])) && Spells(buf, p + HeaderSize(boxes[0]), boxes[0].payload)
            && Spells(buf, p + Length(boxes[0]), Encoded(boxes[1..]))
  {
    SpellsThree(buf, p, Header(boxes[0]), boxes[0].payload, Encoded(boxes[1..]));
  }

  lemma {:induction false} SpellsThree(buf: Bytes, p: nat, a: Bytes, b: Bytes, c: Bytes)
    requires Spells(buf, p, a + (b + c))
    ensures Spells(buf, p, a) && Spells(buf, p + |a|, b) && Spells(buf, p + |a| + |b|, c)
  {
    SpellsParts(buf, p, a, b + c);
    SpellsParts(buf, p + |a|, b, c);
  }

  /** The first box of those written, and where the walk goes on after it. */
  lemma {:induction false} SeesFirst(buf: Bytes, p: nat, len: nat, boxes: seq<Written>)
    requires |boxes| > 0 && Writable(boxes) && len <= |buf| < TWO63 && p <= len <= p + Total(boxes)
    requires Spells(buf, p, Header(boxes[0]))
    ensures var seen := SeenOf(boxes[0], p, len);
            Reading(buf, len)(p) == seen
            && (seen.Some? ==>
                  if boxes[0].form == ToEnd then boxes[1..] == [] && seen.value.end == len
                  else seen.value.end == p + Length(boxes[0]) <= len)
  {
    if boxes[0].form == ToEnd {
      assert boxes[1..] == [] && Total(boxes[1..]) == 0;
    }
    ReadsBox(buf, p, len, boxes[0]);
  }

  lemma {:induction false} SeesWritten(buf: Bytes, p: nat, len: nat, boxes: seq<Written>)
    requires Writable(boxes) && len <= |buf| < TWO63 && p <= len <= p + Total(boxes)
    requires Spells(buf, p, Encoded(boxes))
    ensures Sees(Reading(buf, len), p, len, boxes)
    decreases |boxes|
  {
    NoneAtEnd(buf, len);
    if |boxes| > 0 {
      SpellsBox(buf, p, boxes);
      SeesFirst(buf, p, len, boxes);
      if SeenOf(boxes[0], p, len).Some? && boxes[0].form != ToEnd {
        SeesWritten(buf, p + Length(boxes[0]), len, boxes[1..]);
      }
    }
  }

  lemma {:induction false} NoneAtEnd(buf: Bytes, len: nat)
    requires len <= |buf|
    ensures Reading(buf, len)(len).None?
  {
  }

  lemma {:induction false} BoxesSeen(read: Reader, p: nat, len: nat, boxes: seq<Written>)
    requires Forward(read, len) && Sees(read, p, len, boxes) && Writable(boxes)
    ensures BoxesFrom(read, p, len) == Seen(boxes, p, len)
    decreases |boxes|
  {
    if |boxes| > 0 && read(p).Some? {
      if boxes[0].form == ToEnd {
        assert boxes[1..] == [];
      }
      BoxesSeen(read, read(p).value.end, len, boxes[1..]);
    }
  }

  /** The walk inverts the writer: of any boxes, however they say their sizes and wherever the head is cut, it reads
      exactly those that lie whole within the head, and one that runs to the end up to the cut. */
  lemma {:induction false} WalkInvertsWriter(boxes: seq<Written>, cut: nat)
    requires Writable(boxes) && cut <= Total(boxes) < TWO63
    ensures var buf := Encoded(boxes);
            Forward(Reading(buf, cut), cut) && BoxesFrom(Reading(buf, cut), 0, cut) == Seen(boxes, 0, cut)
  {
    var buf := Encoded(boxes);
    ReadingIsForward(buf, cut);
    SpellsItself(buf);
    SeesWritten(buf, 0, cut, boxes);
    BoxesSeen(Reading(buf, cut), 0, cut, boxes);
  }

  lemma {:induction false} PayloadIs(buf: Bytes, p: nat, payload: Bytes)
    requires Spells(buf, p, payload)
    ensures buf[p..p + |payload|] == payload
  {
    forall k | 0 <= k < |payload| ensures buf[p..p + |payload|][k] == payload[k] {
      assert Same(buf, p, payload, k);
    }
  }

  /** A box read is the box written. */
  ghost predicate Faithful(buf: Bytes, seen: Box, b: Written) {
    seen.kind == b.kind && seen.body <= seen.end <= |buf| && buf[seen.body..seen.end] == b.payload
  }

  lemma {:induction false} FirstIsFaithful(buf: Bytes, boxes: seq<Written>, p: nat)
    requires |boxes| > 0 && Spells(buf, p, Encoded(boxes)) && |buf| == p + Total(boxes)
    requires boxes[0].form == ToEnd ==> |boxes| == 1
    ensures var seen := SeenOf(boxes[0], p, |buf|); seen.Some? && Faithful(buf, seen.value, boxes[0])
  {
    var b := boxes[0];
    SpellsBox(buf, p, boxes);
    PayloadIs(buf, p + HeaderSize(b), b.payload);
    assert b.form == ToEnd ==> Total(boxes[1..]) == 0;
  }

  /** Nothing is lost with the whole in hand: every box is read, with its type and its very payload. */
  lemma {:induction false} NothingIsLost(buf: Bytes, boxes: seq<Written>, p: nat)
    requires Writable(boxes) && Spells(buf, p, Encoded(boxes)) && |buf| == p + Total(boxes)
    ensures var seen := Seen(boxes, p, |buf|);
            |seen| == |boxes| && forall i :: 0 <= i < |boxes| ==> Faithful(buf, seen[i], boxes[i])
    decreases |boxes|
  {
    if |boxes| > 0 {
      var p' := p + Length(boxes[0]);
      FirstIsFaithful(buf, boxes, p);
      SpellsBox(buf, p, boxes);
      NothingIsLost(buf, boxes[1..], p');
      var seen, rest := Seen(boxes, p, |buf|), Seen(boxes[1..], p', |buf|);
      forall i | 0 <= i < |boxes| ensures Faithful(buf, seen[i], boxes[i]) {
        assert i > 0 ==> seen[i] == rest[i - 1] && boxes[i] == boxes[1..][i - 1];
      }
    }
  }

  // ---- the loops ----

  /** One round of the loop: the box at i, or none where it stops. */
  method ReadBox(buf: Bytes, i: nat) returns (r: Option<Box>)
    ensures r == Reading(buf, |buf|)(i)
  {
    if i + 8 > |buf| {
      return None;
    }
    var size: int := U32(buf, i);
    var body := i + 8;
    if size == 1 {
      if body + 8 > |buf| {
        return None;
      }
      size := Signed(U64(buf, body));
      body := body + 8;
    } else if size == 0 {
      size := |buf| - i;
    }
    var end := Signed(i + size);
    if size <= 0 || end > |buf| || body > end {
      return None;
    }
    r := Some(Box(U32(buf, i + 4), body, end));
  }

  method Boxes(buf: Bytes) returns (out: seq<Box>)
    ensures Forward(Reading(buf, |buf|), |buf|) && out == BoxesFrom(Reading(buf, |buf|), 0, |buf|)
  {
    ghost var read := Reading(buf, |buf|);
    ReadingIsForward(buf, |buf|);
    out := [];
    var i := 0;
    while true
      invariant 0 <= i && BoxesFrom(read, 0, |buf|) == out + BoxesFrom(read, i, |buf|)
      decreases |buf| - i
    {
      BoxesStep(read, i, |buf|, out);
      var r := ReadBox(buf, i);
      if r.None? {
        return;
      }
      out := out + [r.value];
      i := r.value.end;
    }
  }

  lemma {:induction false} BoxesStep(read: Reader, i: nat, len: nat, out: seq<Box>)
    requires Forward(read, len)
    ensures out + BoxesFrom(read, i, len)
            == if read(i).None? then out else out + [read(i).value] + BoxesFrom(read, read(i).value.end, len)
  {
    if read(i).Some? {
      var rest := BoxesFrom(read, read(i).value.end, len);
      assert out + ([read(i).value] + rest) == out + [read(i).value] + rest;
    }
  }

  method FindBox(boxes: seq<Box>, kind: nat) returns (found: Option<Box>)
    ensures found == FirstOf(boxes, kind)
  {
    for i := 0 to |boxes|
      invariant FirstOf(boxes, kind) == FirstOf(boxes[i..], kind)
    {
      if boxes[i].kind == kind {
        return Some(boxes[i]);
      }
    }
    found := None;
  }
}
