// Reading EBML elements off the head of a Matroska file (internal/scout/probe.go; RFC 8794 sections 4 to 6, RFC 9559),
// and the writer the walk inverts.
module Ebml {
  import opened Common
  import opened ByteRuns

  const SEGMENT := 0x18538067
  const TRACKS := 0x1654AE6B

  // ---- reading ----

  /** Bit i of a byte, counted from the most significant. */
  predicate Bit(b: byte, i: nat)
    requires i < 8
  {
    match i
    case 0 => b / 128 % 2 == 1
    case 1 => b / 64 % 2 == 1
    case 2 => b / 32 % 2 == 1
    case 3 => b / 16 % 2 == 1
    case 4 => b / 8 % 2 == 1
    case 5 => b / 4 % 2 == 1
    case 6 => b / 2 % 2 == 1
    case _ => b % 2 == 1
  }

  /** The EBML width marker: leading zero bits before the first one, plus one; 0 when there is none. */
  function LeadingLength(b: byte): (n: nat)
    ensures n <= 8 && (b > 0 ==> n > 0 && Marker(n) <= b < 2 * Marker(n))
  {
    if b >= 128 then 1
    else if b >= 64 then 2
    else if b >= 32 then 3
    else if b >= 16 then 4
    else if b >= 8 then 5
    else if b >= 4 then 6
    else if b >= 2 then 7
    else if b >= 1 then 8
    else 0
  }

  /** The marker bit of a width, which is also one more than the largest value the bits after it hold. */
  function Marker(width: nat): byte
    requires 1 <= width <= 8
  {
    match width
    case 1 => 128
    case 2 => 64
    case 3 => 32
    case 4 => 16
    case 5 => 8
    case 6 => 4
    case 7 => 2
    case _ => 1
  }

  /** What the bits after the marker say. */
  function Masked(b: byte, width: nat): byte
    requires 1 <= width <= 8
  {
    b % Marker(width)
  }

  // A Go slice is a window on its bytes: every reader below takes the bytes and where the window ends.

  datatype Id = NoId | Id(id: nat, width: nat)

  function ReadId(buf: Bytes, p: nat, end: nat): (r: Id)
    requires p <= end <= |buf|
    ensures r.Id? ==> 1 <= r.width <= 4 && p + r.width <= end
  {
    if p == end then NoId
    else
      var n := LeadingLength(buf[p]);
      if n == 0 || n > 4 || end - p < n then NoId else Id(Number(buf, p, n), n)
  }

  datatype Size = NoSize | Size(size: nat, width: nat, unknown: bool)

  /** The first k bytes of a size at p, less its marker. */
  function SizeNumber(buf: Bytes, p: nat, width: nat, k: nat): nat
    requires 1 <= k <= width <= 8 && p + width <= |buf|
  {
    if k == 1 then Masked(buf[p], width) else SizeNumber(buf, p, width, k - 1) * 256 + buf[p + k - 1]
  }

  /** Every value bit of the first k bytes is set. */
  predicate AllOnes(buf: Bytes, p: nat, width: nat, k: nat)
    requires 1 <= k <= width <= 8 && p + width <= |buf|
  {
    if k == 1 then Masked(buf[p], width) == Marker(width) - 1 else AllOnes(buf, p, width, k - 1) && buf[p + k - 1] == 255
  }

  /** A size, less its marker; all ones is EBML's unknown size. */
  function ReadSize(buf: Bytes, p: nat, end: nat): (r: Size)
    requires end <= |buf|
    ensures r.Size? ==> 1 <= r.width <= 8 && p + r.width <= end
  {
    if p >= end then NoSize
    else
      var n := LeadingLength(buf[p]);
      if n == 0 || p + n > end then NoSize
      else Size(SizeNumber(buf, p, n, n), n, AllOnes(buf, p, n, n))
  }

  /** An element's id and size, and where its payload begins. */
  datatype Header = NoHeader | Header(id: nat, body: nat, size: nat, unknown: bool)

  function ReadHeader(buf: Bytes, p: nat, end: nat): (h: Header)
    requires p <= end <= |buf|
    ensures h.Header? ==> p < h.body <= end
  {
    match ReadId(buf, p, end)
    case NoId => NoHeader
    case Id(id, n) =>
      match ReadSize(buf, p + n, end)
      case NoSize => NoHeader
      case Size(size, m, unknown) => Header(id, p + n + m, size, unknown)
  }

  /** Where a payload lies. */
  datatype Range = Range(from: nat, to: nat)

  // The walks see a window only through the header read at each place in it.

  type Reader = nat -> Header

  function Reading(buf: Bytes, end: nat): Reader
    requires end <= |buf|
  {
    (p: nat) => if p <= end then ReadHeader(buf, p, end) else NoHeader
  }

  ghost predicate Forward(read: Reader, end: nat) {
    forall p: nat :: read(p).Header? ==> p < read(p).body <= end
  }

  lemma {:induction false} ReadingIsForward(buf: Bytes, end: nat)
    requires end <= |buf|
    ensures Forward(Reading(buf, end), end)
  {
  }

  /** The first Tracks element at or after pos among the children of a Segment. */
  function TracksFrom(read: Reader, pos: nat, end: nat): Option<Range>
    requires Forward(read, end)
    decreases end - pos
  {
    if pos >= end then None
    else match read(pos)
      case NoHeader => None
      case Header(id, body, size, unknown) =>
        if unknown || body + size > end then None
        else if id == TRACKS then Some(Range(body, body + size))
        else TracksFrom(read, body + size, end)
  }

  /** The children of the first Segment at or after pos: all there is up to the end, when its size is unknown. */
  function SegmentFrom(read: Reader, pos: nat, end: nat): (r: Option<Range>)
    requires Forward(read, end)
    ensures r.Some? ==> r.value.from <= r.value.to <= end
    decreases end - pos
  {
    if pos >= end then None
    else match read(pos)
      case NoHeader => None
      case Header(id, body, size, unknown) =>
        if id == SEGMENT then Some(Range(body, if unknown then end else Min(body + size, end)))
        else if unknown then None
        else SegmentFrom(read, body + size, end)
  }

  /** The first Tracks element of a Segment found. */
  ghost function TracksOf(buf: Bytes, segment: Option<Range>): Option<Range>
    requires segment.Some? ==> segment.value.to <= |buf|
  {
    match segment
    case None => None
    case Some(s) =>
      ReadingIsForward(buf, s.to);
      TracksFrom(Reading(buf, s.to), s.from, s.to)
  }

  /** The walk of a head: to the Segment, then among its children. */
  ghost function Walk(buf: Bytes, end: nat): Option<Range>
    requires end <= |buf|
  {
    ReadingIsForward(buf, end);
    TracksOf(buf, SegmentFrom(Reading(buf, end), 0, end))
  }

  datatype Child = Child(id: nat, payload: Range)

  /** The elements from pos on, up to the first that cannot be read; here an all-ones size is a size. */
  function ChildrenFrom(read: Reader, pos: nat, end: nat): seq<Child>
    requires Forward(read, end)
    decreases end - pos
  {
    if pos >= end then []
    else match read(pos)
      case NoHeader => []
      case Header(id, body, size, _) =>
        if body + size > end then [] else [Child(id, Range(body, body + size))] + ChildrenFrom(read, body + size, end)
  }

  lemma {:induction false} LeadingLengthOf(b: byte, n: nat)
    requires 1 <= n <= 8 && Marker(n) <= b < 2 * Marker(n)
    ensures LeadingLength(b) == n && Masked(b, n) == b - Marker(n)
  {
  }

  // ---- the writer ----

  /** An element to write: `width` is how many bytes its size is written in. */
  datatype Element = Element(id: nat, width: Width, payload: Bytes)

  type Width = w: nat | 1 <= w <= 8 witness 1

  /** The bytes an id takes, by its marker; 0 when it is not an id of up to four bytes. */
  function IdWidth(id: nat): nat {
    if 0x80 <= id < 0x100 then 1
    else if 0x4000 <= id < 0x8000 then 2
    else if 0x20_0000 <= id < 0x40_0000 then 3
    else if 0x1000_0000 <= id < 0x2000_0000 then 4
    else 0
  }

  /** How many sizes a width can say, the unknown marker among them. */
  function Sizes(width: nat): nat
    requires 1 <= width <= 8
  {
    match width
    case 1 => 0x80
    case 2 => 0x4000
    case 3 => 0x20_0000
    case 4 => 0x1000_0000
    case 5 => 0x8_0000_0000
    case 6 => 0x400_0000_0000
    case 7 => 0x2_0000_0000_0000
    case _ => 0x100_0000_0000_0000
  }

  /** The id is one, and the size fits its width without being the unknown marker. */
  predicate Writable(e: Element) {
    IdWidth(e.id) > 0 && |e.payload| < Sizes(e.width) - 1
  }

  ghost predicate AllWritable(elements: seq<Element>) {
    |elements| == 0 || (Writable(elements[0]) && AllWritable(elements[1..]))
  }

  /** The first of n bytes is what is left when the others are dropped. */
  lemma {:induction false} TopByte(x: nat, n: nat, lo: nat, hi: nat)
    requires n >= 1 && hi <= 256 && Scaled(lo, n - 1) <= x < Scaled(hi, n - 1)
    ensures lo <= Put(x, n)[0] < hi
  {
    if n > 1 {
      TopByte(x / 256, n - 1, lo, hi);
    }
  }

  lemma {:induction false} SizesScaled(width: nat)
    requires 1 <= width <= 8
    ensures Scaled(Marker(width), width - 1) == Sizes(width)
  {
    var m: nat := Marker(width);
    assert Scaled(m, 1) == 256 * m && Scaled(m, 2) == 0x1_0000 * m && Scaled(m, 3) == 0x100_0000 * m;
    assert Scaled(m, 4) == 0x1_0000_0000 * m && Scaled(m, 5) == 0x100_0000_0000 * m;
    assert Scaled(m, 6) == 0x1_0000_0000_0000 * m && Scaled(m, 7) == 0x100_0000_0000_0000 * m;
  }

  /** A size behind its marker, in `width` bytes; the marker takes the place of the bits it does not fit in. */
  function PutSize(size: nat, width: Width): (b: Bytes)
    ensures |b| == width
  {
    var b := Put(size, width);
    [Masked(b[0], width) + Marker(width)] + b[1..]
  }

  lemma {:induction false} ScaledZero(k: nat)
    ensures Scaled(0, k) == 0
  {
    if k > 0 {
      ScaledZero(k - 1);
    }
  }

  /** The bytes an element takes. */
  function Length(e: Element): nat {
    IdWidth(e.id) + e.width + |e.payload|
  }

  function Encoded(e: Element): (b: Bytes)
    ensures |b| == Length(e)
  {
    Put(e.id, IdWidth(e.id)) + (PutSize(|e.payload|, e.width) + e.payload)
  }

  function Total(elements: seq<Element>): nat {
    if |elements| == 0 then 0 else Length(elements[0]) + Total(elements[1..])
  }

  function EncodedAll(elements: seq<Element>): (b: Bytes)
    ensures |b| == Total(elements)
  {
    if |elements| == 0 then [] else Encoded(elements[0]) + EncodedAll(elements[1..])
  }

  lemma {:induction false} ScaledGrows(a: nat, b: nat, k: nat)
    requires a <= b
    ensures Scaled(a, k) <= Scaled(b, k)
  {
    if k > 0 {
      ScaledGrows(a, b, k - 1);
    }
  }

  /** The unknown marker is the largest value the width can say. */
  lemma {:induction false} UnknownIsLargest(buf: Bytes, p: nat, width: nat, k: nat)
    requires 1 <= k <= width <= 8 && p + width <= |buf|
    ensures SizeNumber(buf, p, width, k) < Scaled(Marker(width), k - 1)
    ensures AllOnes(buf, p, width, k) <==> SizeNumber(buf, p, width, k) == Scaled(Marker(width), k - 1) - 1
  {
    if k > 1 {
      UnknownIsLargest(buf, p, width, k - 1);
    }
  }

  // ---- reading what was written ----

  lemma {:induction false} IdFirstByte(id: nat)
    requires IdWidth(id) > 0
    ensures var n := IdWidth(id);
            LeadingLength(Put(id, n)[0]) == n && id < Scaled(256, n - 1)
  {
    var n := IdWidth(id);
    var m: nat := Marker(n);
    assert Scaled(m, n - 1) <= id < Scaled(2 * m, n - 1) by {
      assert Scaled(m, 1) == 256 * m && Scaled(m, 2) == 0x1_0000 * m && Scaled(m, 3) == 0x100_0000 * m;
      assert Scaled(2 * m, 1) == 512 * m && Scaled(2 * m, 2) == 0x2_0000 * m && Scaled(2 * m, 3) == 0x200_0000 * m;
    }
    TopByte(id, n, m, 2 * m);
    LeadingLengthOf(Put(id, n)[0], n);
    ScaledGrows(2 * m, 256, n - 1);
  }

  lemma {:induction false} ReadsId(buf: Bytes, p: nat, end: nat, id: nat)
    requires IdWidth(id) > 0 && p < end <= |buf| && Spells(buf, p, Put(id, IdWidth(id)))
    ensures ReadId(buf, p, end) == if p + IdWidth(id) <= end then Id(id, IdWidth(id)) else NoId
  {
    var n := IdWidth(id);
    IdFirstByte(id);
    assert Same(buf, p, Put(id, n), 0);
    NumberPut(buf, p, id, n);
  }

  lemma {:induction false} Unmasked(b: byte, width: nat)
    requires 1 <= width <= 8 && b < Marker(width)
    ensures Masked(b, width) == b
  {
  }

  lemma {:induction false} SizeFirstByte(size: nat, width: nat)
    requires 1 <= width <= 8 && size < Sizes(width)
    ensures LeadingLength(PutSize(size, width)[0]) == width
            && Masked(PutSize(size, width)[0], width) == Put(size, width)[0]
  {
    var b := Put(size, width)[0];
    SizesScaled(width);
    ScaledZero(width - 1);
    TopByte(size, width, 0, Marker(width));
    Unmasked(b, width);
    LeadingLengthOf(b + Marker(width), width);
  }

  /** Up to each byte, the size read is the number the bytes after the marker say. */
  lemma {:induction false} SizeBytes(buf: Bytes, p: nat, size: nat, width: nat, k: nat)
    requires 1 <= k <= width <= 8 && size < Sizes(width) && Spells(buf, p, PutSize(size, width))
    ensures SizeNumber(buf, p, width, k) == Number(Put(size, width), 0, k)
  {
    var b := Put(size, width);
    assert Same(buf, p, PutSize(size, width), k - 1);
    if k > 1 {
      SizeBytes(buf, p, size, width, k - 1);
    } else {
      SizeFirstByte(size, width);
      assert Number(b, 0, 0) == 0;
    }
  }

  lemma {:induction false} ReadsSize(buf: Bytes, p: nat, end: nat, size: nat, width: nat)
    requires 1 <= width <= 8 && size < Sizes(width) && p <= end <= |buf| && Spells(buf, p, PutSize(size, width))
    ensures ReadSize(buf, p, end)
            == if p + width <= end then Size(size, width, size == Sizes(width) - 1) else NoSize
  {
    SizeFirstByte(size, width);
    assert Same(buf, p, PutSize(size, width), 0);
    SizeBytes(buf, p, size, width, width);
    SizesScaled(width);
    ScaledGrows(Marker(width), 256, width - 1);
    PutSpells(size, width);
    NumberPut(Put(size, width), 0, size, width);
    UnknownIsLargest(buf, p, width, width);
  }

  lemma {:induction false} PutSpells(x: nat, n: nat)
    ensures Spells(Put(x, n), 0, Put(x, n))
  {
    forall i | 0 <= i < n ensures Same(Put(x, n), 0, Put(x, n), i) {
    }
  }

  /** What is read of one written element: nothing when its header is cut short. */
  lemma {:induction false} ReadsHeader(buf: Bytes, p: nat, end: nat, id: nat, size: nat, width: nat)
    requires IdWidth(id) > 0 && 1 <= width <= 8 && size < Sizes(width)
    requires p < end <= |buf| && Spells(buf, p, Put(id, IdWidth(id)) + PutSize(size, width))
    ensures var body := p + IdWidth(id) + width;
            ReadHeader(buf, p, end) == if body > end then NoHeader else Header(id, body, size, size == Sizes(width) - 1)
  {
    var w := IdWidth(id);
    SpellsParts(buf, p, Put(id, w), PutSize(size, width));
    ReadsId(buf, p, end, id);
    if p + w <= end {
      ReadsSize(buf, p + w, end, size, width);
    }
  }

  /** What is read at p of an element written there. */
  function HeaderOf(e: Element, p: nat, end: nat): Header {
    var body := p + IdWidth(e.id) + e.width;
    if body > end then NoHeader else Header(e.id, body, |e.payload|, false)
  }

  lemma {:induction false} ReadsElement(buf: Bytes, p: nat, end: nat, e: Element)
    requires Writable(e) && p < end <= |buf| && Spells(buf, p, Encoded(e))
    ensures Reading(buf, end)(p) == HeaderOf(e, p, end)
  {
    var header := Put(e.id, IdWidth(e.id)) + PutSize(|e.payload|, e.width);
    assert Encoded(e) == header + e.payload;
    SpellsParts(buf, p, header, e.payload);
    ReadsHeader(buf, p, end, e.id, |e.payload|, e.width);
  }

  /** From p on a reader sees these elements, as far as the window goes. */
  ghost predicate Sees(read: Reader, p: nat, end: nat, elements: seq<Element>)
    decreases |elements|
  {
    |elements| == 0
    || ((p < end ==> read(p) == HeaderOf(elements[0], p, end))
        && Sees(read, p + Length(elements[0]), end, elements[1..]))
  }

  lemma {:induction false} SeesWritten(buf: Bytes, p: nat, end: nat, elements: seq<Element>)
    requires AllWritable(elements) && end <= |buf| && Spells(buf, p, EncodedAll(elements))
    ensures Sees(Reading(buf, end), p, end, elements)
    decreases |elements|
  {
    if |elements| > 0 {
      var e, rest := elements[0], elements[1..];
      SpellsParts(buf, p, Encoded(e), EncodedAll(rest));
      if p < end {
        ReadsElement(buf, p, end, e);
      }
      SeesWritten(buf, p + Length(e), end, rest);
    }
  }

  // ---- the walks over written elements ----

  /** Where the payload of an element written at p lies. */
  function PayloadAt(p: nat, e: Element): Range {
    Range(p + IdWidth(e.id) + e.width, p + Length(e))
  }

  lemma {:induction false} PayloadIs(buf: Bytes, p: nat, e: Element)
    requires Spells(buf, p, Encoded(e))
    ensures var r := PayloadAt(p, e); r.to <= |buf| && buf[r.from..r.to] == e.payload
  {
    var id, size := Put(e.id, IdWidth(e.id)), PutSize(|e.payload|, e.width);
    SpellsParts(buf, p, id, size + e.payload);
    SpellsParts(buf, p + |id|, size, e.payload);
    var r := PayloadAt(p, e);
    forall i | 0 <= i < |e.payload| ensures buf[r.from..r.to][i] == e.payload[i] {
      assert Same(buf, r.from, e.payload, i);
    }
  }

  /** The first Tracks payload among elements written from p on, when it ends by `end`. */
  function FirstTracks(elements: seq<Element>, p: nat, end: int): Option<Range> {
    if |elements| == 0 || p + Length(elements[0]) > end then None
    else if elements[0].id == TRACKS then Some(PayloadAt(p, elements[0]))
    else FirstTracks(elements[1..], p + Length(elements[0]), end)
  }

  lemma {:induction false} TracksFound(read: Reader, p: nat, end: nat, elements: seq<Element>)
    requires Forward(read, end) && Sees(read, p, end, elements) && end <= p + Total(elements)
    ensures TracksFrom(read, p, end) == FirstTracks(elements, p, end)
    decreases |elements|
  {
    if p < end && p + Length(elements[0]) <= end {
      TracksFound(read, p + Length(elements[0]), end, elements[1..]);
    }
  }

  function Children(elements: seq<Element>, p: nat): seq<Child> {
    if |elements| == 0 then []
    else [Child(elements[0].id, PayloadAt(p, elements[0]))] + Children(elements[1..], p + Length(elements[0]))
  }

  lemma {:induction false} ChildrenFound(read: Reader, p: nat, end: nat, elements: seq<Element>)
    requires Forward(read, end) && Sees(read, p, end, elements) && end == p + Total(elements)
    requires AllWritable(elements)
    ensures ChildrenFrom(read, p, end) == Children(elements, p)
    decreases |elements|
  {
    if |elements| > 0 {
      ChildrenFound(read, p + Length(elements[0]), end, elements[1..]);
    }
  }

  /** The elements of a payload are read back one for one. */
  lemma {:induction false} ChildrenReadBack(elements: seq<Element>)
    requires AllWritable(elements)
    ensures var buf := EncodedAll(elements);
            Forward(Reading(buf, |buf|), |buf|)
            && ChildrenFrom(Reading(buf, |buf|), 0, |buf|) == Children(elements, 0)
  {
    var buf := EncodedAll(elements);
    ReadingIsForward(buf, |buf|);
    SpellsItself(buf);
    SeesWritten(buf, 0, |buf|, elements);
    ChildrenFound(Reading(buf, |buf|), 0, |buf|, elements);
  }

  // ---- a whole file ----

  /** A Matroska file: what comes before the Segment, how wide its size is and whether it is known, its children, and
      whatever follows a Segment of known size. */
  datatype File = File(before: seq<Element>, width: Width, known: bool, children: seq<Element>, after: Bytes)

  ghost predicate NoSegment(elements: seq<Element>) {
    |elements| == 0 || (elements[0].id != SEGMENT && NoSegment(elements[1..]))
  }

  ghost predicate WellFormed(f: File) {
    AllWritable(f.before) && AllWritable(f.children) && NoSegment(f.before)
    && (f.known ==> Total(f.children) < Sizes(f.width) - 1)
    && (!f.known ==> f.after == [])
  }

  function SegmentSize(f: File): nat {
    if f.known then Total(f.children) else Sizes(f.width) - 1
  }

  function EncodedFile(f: File): Bytes {
    EncodedAll(f.before)
    + (Put(SEGMENT, 4) + PutSize(SegmentSize(f), f.width) + (EncodedAll(f.children) + f.after))
  }

  /** Where the children of the Segment begin. */
  function ChildrenAt(f: File): nat {
    Total(f.before) + 4 + f.width
  }

  lemma {:induction false} WalksToSegment(read: Reader, p: nat, end: nat, before: seq<Element>)
    requires Forward(read, end) && Sees(read, p, end, before) && NoSegment(before)
    ensures var q := p + Total(before);
            SegmentFrom(read, p, end) == if q < end then SegmentFrom(read, q, end) else None
    decreases |before|
  {
    if |before| > 0 && p < end {
      WalksToSegment(read, p + Length(before[0]), end, before[1..]);
    }
  }

  /** An end past the last element is as good as the end of the last element. */
  lemma {:induction false} PastTheLast(elements: seq<Element>, p: nat, end: nat)
    requires end >= p + Total(elements)
    ensures FirstTracks(elements, p, end) == FirstTracks(elements, p, p + Total(elements))
    decreases |elements|
  {
    if |elements| > 0 {
      PastTheLast(elements[1..], p + Length(elements[0]), end);
    }
  }

  lemma {:induction false} NothingBy(elements: seq<Element>, p: nat, end: int)
    requires end < p
    ensures FirstTracks(elements, p, end) == None
  {
  }

  /** What a cut head shows of its Segment. */
  lemma {:induction false} SegmentFound(read: Reader, cut: nat, f: File)
    requires Forward(read, cut) && Sees(read, 0, cut, f.before) && NoSegment(f.before)
    requires Total(f.before) < cut ==>
               read(Total(f.before))
               == if ChildrenAt(f) > cut then NoHeader else Header(SEGMENT, ChildrenAt(f), SegmentSize(f), !f.known)
    ensures SegmentFrom(read, 0, cut) == Window(f, cut)
  {
    WalksToSegment(read, 0, cut, f.before);
  }

  /** What a window on the children, cut or whole, shows of them. */
  lemma {:induction false} ChildrenUpTo(buf: Bytes, body: nat, end: nat, children: seq<Element>)
    requires AllWritable(children) && body <= end <= |buf| && end <= body + Total(children)
    requires Spells(buf, body, EncodedAll(children))
    ensures Forward(Reading(buf, end), end)
            && TracksFrom(Reading(buf, end), body, end) == FirstTracks(children, body, end)
  {
    ReadingIsForward(buf, end);
    SeesWritten(buf, body, end, children);
    TracksFound(Reading(buf, end), body, end, children);
  }

  lemma {:induction false} ChildrenCut(buf: Bytes, body: nat, end: nat, cut: nat, children: seq<Element>)
    requires AllWritable(children) && body <= end <= cut <= |buf| && Spells(buf, body, EncodedAll(children))
    requires end == cut <= body + Total(children) || end == body + Total(children)
    ensures Forward(Reading(buf, end), end)
            && TracksFrom(Reading(buf, end), body, end) == FirstTracks(children, body, cut)
  {
    ChildrenUpTo(buf, body, end, children);
    if end < cut {
      PastTheLast(children, body, cut);
    }
  }

  lemma {:induction false} FileSpells(f: File)
    ensures var buf := EncodedFile(f);
            |buf| == ChildrenAt(f) + Total(f.children) + |f.after|
            && Spells(buf, 0, EncodedAll(f.before))
            && Spells(buf, Total(f.before), Put(SEGMENT, 4) + PutSize(SegmentSize(f), f.width))
            && Spells(buf, ChildrenAt(f), EncodedAll(f.children))
  {
    var buf, a, c := EncodedFile(f), EncodedAll(f.before), EncodedAll(f.children);
    var b := Put(SEGMENT, 4) + PutSize(SegmentSize(f), f.width);
    SpellsItself(buf);
    SpellsParts(buf, 0, a, b + (c + f.after));
    SpellsParts(buf, |a|, b, c + f.after);
    SpellsParts(buf, |a| + |b|, c, f.after);
  }

  lemma {:induction false} SegmentRead(f: File, cut: nat)
    requires WellFormed(f) && Total(f.before) < cut <= |EncodedFile(f)|
    ensures Reading(EncodedFile(f), cut)(Total(f.before))
            == if ChildrenAt(f) > cut then NoHeader else Header(SEGMENT, ChildrenAt(f), SegmentSize(f), !f.known)
  {
    FileSpells(f);
    ReadsHeader(EncodedFile(f), Total(f.before), cut, SEGMENT, SegmentSize(f), f.width);
  }

  /** The walk inverts the writer: of any file, whatever its payloads spell and however its sizes are written, and
      wherever the head read is cut, the walk finds exactly the first Tracks payload of the Segment when that lies
      whole within the head, and nothing otherwise. */
  lemma {:induction false} WalkInvertsWriter(f: File, cut: nat)
    requires WellFormed(f) && cut <= |EncodedFile(f)|
    ensures Walk(EncodedFile(f), cut) == FirstTracks(f.children, ChildrenAt(f), cut)
  {
    FileSpells(f);
    if Total(f.before) < cut {
      SegmentRead(f, cut);
    }
    WalkOf(EncodedFile(f), f, cut);
  }

  /** The window on the children that a head cut there leaves. */
  function Window(f: File, cut: nat): Option<Range> {
    var body := ChildrenAt(f);
    if body > cut then None else Some(Range(body, if f.known then Min(body + Total(f.children), cut) else cut))
  }

  lemma {:induction false} SegmentSeen(buf: Bytes, f: File, cut: nat)
    requires WellFormed(f) && cut <= |buf| && Spells(buf, 0, EncodedAll(f.before))
    requires Total(f.before) < cut ==>
               Reading(buf, cut)(Total(f.before))
               == if ChildrenAt(f) > cut then NoHeader else Header(SEGMENT, ChildrenAt(f), SegmentSize(f), !f.known)
    ensures Forward(Reading(buf, cut), cut) && SegmentFrom(Reading(buf, cut), 0, cut) == Window(f, cut)
  {
    ReadingIsForward(buf, cut);
    SeesWritten(buf, 0, cut, f.before);
    SegmentFound(Reading(buf, cut), cut, f);
  }

  lemma {:induction false} ChildrenSeen(buf: Bytes, f: File, cut: nat)
    requires WellFormed(f) && cut <= |buf| == ChildrenAt(f) + Total(f.children) + |f.after|
    requires Spells(buf, ChildrenAt(f), EncodedAll(f.children))
    ensures TracksOf(buf, Window(f, cut)) == FirstTracks(f.children, ChildrenAt(f), cut)
  {
    var body := ChildrenAt(f);
    if body > cut {
      NothingBy(f.children, body, cut);
    } else {
      ChildrenCut(buf, body, Window(f, cut).value.to, cut, f.children);
    }
  }

  lemma {:induction false} WalkOf(buf: Bytes, f: File, cut: nat)
    requires WellFormed(f) && cut <= |buf| == ChildrenAt(f) + Total(f.children) + |f.after|
    requires Spells(buf, 0, EncodedAll(f.before)) && Spells(buf, ChildrenAt(f), EncodedAll(f.children))
    requires Total(f.before) < cut ==>
               Reading(buf, cut)(Total(f.before))
               == if ChildrenAt(f) > cut then NoHeader else Header(SEGMENT, ChildrenAt(f), SegmentSize(f), !f.known)
    ensures Walk(buf, cut) == FirstTracks(f.children, ChildrenAt(f), cut)
  {
    SegmentSeen(buf, f, cut);
    ChildrenSeen(buf, f, cut);
  }

  lemma {:induction false} FirstTracksAt(buf: Bytes, elements: seq<Element>, i: nat, p: nat, end: nat)
    requires i < |elements| && elements[i].id == TRACKS && forall j :: 0 <= j < i ==> elements[j].id != TRACKS
    requires Spells(buf, p, EncodedAll(elements)) && end >= p + Total(elements)
    ensures var r := FirstTracks(elements, p, end);
            r.Some? && r.value.from <= r.value.to <= |buf| && buf[r.value.from..r.value.to] == elements[i].payload
    decreases |elements|
  {
    SpellsParts(buf, p, Encoded(elements[0]), EncodedAll(elements[1..]));
    if i > 0 {
      assert elements[0].id != TRACKS;
      FirstTracksAt(buf, elements[1..], i - 1, p + Length(elements[0]), end);
    } else {
      PayloadIs(buf, p, elements[0]);
    }
  }

  /** With the whole file in hand, the walk finds the bytes written into the first Tracks of the Segment. */
  lemma {:induction false} WalkFindsFirstTracks(f: File, i: nat)
    requires WellFormed(f) && i < |f.children| && f.children[i].id == TRACKS
    requires forall j :: 0 <= j < i ==> f.children[j].id != TRACKS
    ensures var buf := EncodedFile(f);
            var r := Walk(buf, |buf|);
            r.Some? && r.value.from <= r.value.to <= |buf| && buf[r.value.from..r.value.to] == f.children[i].payload
  {
    var buf := EncodedFile(f);
    FileSpells(f);
    WalkInvertsWriter(f, |buf|);
    FirstTracksAt(buf, f.children, i, ChildrenAt(f), |buf|);
  }

  // ---- the loops ----

  /** The loop over a byte's bits. */
  method ScanLeading(b: byte) returns (n: nat)
    ensures n == LeadingLength(b)
  {
    for i := 0 to 8
      invariant i == 0 || b < Marker(i)
    {
      if Bit(b, i) {
        return i + 1;
      }
    }
    n := 0;
  }

  /** The loop over a size's bytes. */
  method ReadSizeAt(buf: Bytes, p: nat, end: nat) returns (r: Size)
    requires end <= |buf|
    ensures r == ReadSize(buf, p, end)
  {
    if p >= end {
      return NoSize;
    }
    var n := ScanLeading(buf[p]);
    if n == 0 || p + n > end {
      return NoSize;
    }
    var v: nat := Masked(buf[p], n);
    var ones := v == Marker(n) - 1;
    for i := 1 to n
      invariant v == SizeNumber(buf, p, n, i) && ones == AllOnes(buf, p, n, i)
    {
      v := v * 256 + buf[p + i];
      ones := ones && buf[p + i] == 255;
    }
    r := Size(v, n, ones);
  }

  method HeaderAt(buf: Bytes, p: nat, end: nat) returns (h: Header)
    requires p <= end <= |buf|
    ensures h == Reading(buf, end)(p)
  {
    var id := ReadId(buf, p, end);
    if id.NoId? {
      return NoHeader;
    }
    var size := ReadSizeAt(buf, p + id.width, end);
    if size.NoSize? {
      return NoHeader;
    }
    h := Header(id.id, p + id.width + size.width, size.size, size.unknown);
  }

  lemma {:induction false} TracksStep(read: Reader, pos: nat, end: nat, h: Header)
    requires Forward(read, end) && pos < end && read(pos) == h
    ensures h.Header? ==> pos < h.body <= end
    ensures TracksFrom(read, pos, end)
            == if h.NoHeader? || h.unknown || h.body + h.size > end then None
               else if h.id == TRACKS then Some(Range(h.body, h.body + h.size))
               else TracksFrom(read, h.body + h.size, end)
  {
  }

  method FindTracksIn(buf: Bytes, from: nat, end: nat) returns (found: Option<Range>)
    requires from <= end <= |buf|
    ensures Forward(Reading(buf, end), end) && found == TracksFrom(Reading(buf, end), from, end)
  {
    ReadingIsForward(buf, end);
    found := WalkChildren(buf, from, end, Reading(buf, end));
  }

  /** Any reader that reads off the buffer: what it reads is not looked into. */
  ghost predicate Reads(read: Reader, buf: Bytes, end: nat)
    requires end <= |buf|
  {
    forall p: nat {:trigger ReadHeader(buf, p, end)} :: p <= end ==> read(p) == ReadHeader(buf, p, end)
  }

  method HeaderIn(buf: Bytes, p: nat, end: nat, ghost read: Reader) returns (h: Header)
    requires p <= end <= |buf| && Reads(read, buf, end)
    ensures h == read(p)
  {
    h := HeaderAt(buf, p, end);
    assert read(p) == ReadHeader(buf, p, end);
  }

  /** The child loop. */
  method WalkChildren(buf: Bytes, from: nat, end: nat, ghost read: Reader) returns (found: Option<Range>)
    requires from <= end <= |buf| && Reads(read, buf, end) && Forward(read, end)
    ensures found == TracksFrom(read, from, end)
  {
    var pos := from;
    while pos < end
      invariant from <= pos && TracksFrom(read, from, end) == TracksFrom(read, pos, end)
      decreases end - pos
    {
      var h := HeaderIn(buf, pos, end, read);
      TracksStep(read, pos, end, h);
      if h.NoHeader? || h.unknown {
        return None;
      }
      var next := h.body + h.size;
      if next > end || next < h.body {
        return None;
      }
      if h.id == TRACKS {
        return Some(Range(h.body, next));
      }
      pos := next;
    }
    found := None;
  }

  lemma {:induction false} SegmentStep(read: Reader, pos: nat, end: nat, h: Header)
    requires Forward(read, end) && pos < end && read(pos) == h
    ensures SegmentFrom(read, pos, end)
            == if h.NoHeader? then None
               else if h.id == SEGMENT then Some(Range(h.body, if h.unknown then end else Min(h.body + h.size, end)))
               else if h.unknown then None
               else SegmentFrom(read, h.body + h.size, end)
  {
  }

  /** The top-level loop. */
  method FindSegment(head: Bytes) returns (segment: Option<Range>)
    ensures Forward(Reading(head, |head|), |head|) && segment == SegmentFrom(Reading(head, |head|), 0, |head|)
  {
    ReadingIsForward(head, |head|);
    segment := WalkTop(head, Reading(head, |head|));
  }

  /** The top-level loop itself. */
  method WalkTop(head: Bytes, ghost read: Reader) returns (segment: Option<Range>)
    requires Reads(read, head, |head|) && Forward(read, |head|)
    ensures segment == SegmentFrom(read, 0, |head|)
  {
    var pos := 0;
    while pos < |head|
      invariant 0 <= pos && SegmentFrom(read, 0, |head|) == SegmentFrom(read, pos, |head|)
      decreases |head| - pos
    {
      var h := HeaderIn(head, pos, |head|, read);
      SegmentStep(read, pos, |head|, h);
      if h.NoHeader? {
        return None;
      }
      if h.id == SEGMENT {
        var end := |head|;
        if !h.unknown && h.body + h.size < end {
          end := h.body + h.size;
        }
        return Some(Range(h.body, end));
      }
      if h.unknown {
        return None;
      }
      pos := h.body + h.size;
    }
    segment := None;
  }

  method FindTracksPayload(head: Bytes) returns (found: Option<Range>)
    ensures found == Walk(head, |head|)
  {
    var segment := FindSegment(head);
    if segment.None? {
      return None;
    }
    found := FindTracksIn(head, segment.value.from, segment.value.to);
  }
}
