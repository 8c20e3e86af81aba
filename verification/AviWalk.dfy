// Reading the stream headers of an AVI by recursing through its lists (internal/scout/probe_avi.go), and the writer
// the walk inverts.
module AviWalk {
  import opened Common
  import opened ByteRuns

  const MAX_DEPTH: nat := 16

  // Four-byte ids and labels, each read as one number: "LIST", "RIFF", "strh", "strf", "auds", "vids".
  const LIST := 0x5453_494C
  const RIFF := 0x4646_4952
  const STRH := 0x6872_7473
  const STRF := 0x6672_7473
  const AUDS := 0x7364_7561
  const VIDS := 0x7364_6976

  /** Four bytes, least significant first. */
  function Little(buf: Bytes, p: nat): (x: nat)
    requires p + 4 <= |buf|
    ensures x < 0x1_0000_0000
  {
    var (a: nat, b: nat, c: nat, d: nat) := (buf[p], buf[p + 1], buf[p + 2], buf[p + 3]);
    a + 0x100 * b + 0x1_0000 * c + 0x100_0000 * d
  }

  // ---- the walk ----

  datatype Kind = Nested | StreamHeader | StreamFormat | Other

  function KindOf(id: nat): Kind {
    if id == LIST || id == RIFF then Nested
    else if id == STRH then StreamHeader
    else if id == STRF then StreamFormat
    else Other
  }

  datatype Chunk = Chunk(kind: Kind, size: nat)

  /** The chunk read at each place; the walk asks only where eight bytes are there to read. */
  type Reader = nat -> Chunk

  function ChunkAt(buf: Bytes, i: nat): Chunk
    requires i + 8 <= |buf|
  {
    Chunk(KindOf(Little(buf, i)), Little(buf, i + 4))
  }

  function Reading(buf: Bytes, len: nat): Reader
    requires len <= |buf|
  {
    (i: nat) => if i + 8 <= len then ChunkAt(buf, i) else Chunk(Other, 0)
  }

  ghost predicate Reads(read: Reader, buf: Bytes) {
    forall i: nat {:trigger ChunkAt(buf, i)} :: i + 8 <= |buf| ==> read(i) == ChunkAt(buf, i)
  }

  /** A stream's header or format, and where its payload begins. */
  datatype Visit = Visit(kind: Kind, body: nat)

  function Here(kind: Kind, body: nat): seq<Visit> {
    if kind.StreamHeader? || kind.StreamFormat? then [Visit(kind, body)] else []
  }

  /** Where a list's children stop, by the walk: four bytes past the list, for its size counts its own type. */
  function Stop(body: nat, size: nat, len: nat): nat {
    Min(body + 4 + size, len)
  }

  function Next(body: nat, size: nat): nat {
    body + size + size % 2
  }

  /** What the walk visits from i on, in order. */
  function Visits(read: Reader, len: nat, i: nat, end: nat, depth: nat): seq<Visit>
    decreases if depth <= MAX_DEPTH then MAX_DEPTH + 1 - depth else 0, len - i
  {
    if depth > MAX_DEPTH || i + 8 > end || i + 8 > len then []
    else
      var c, body := read(i), i + 8;
      var within := if c.kind.Nested? then Visits(read, len, body + 4, Stop(body, c.size, len), depth + 1)
                    else Here(c.kind, body);
      within + Visits(read, len, Next(body, c.size), end, depth)
  }

  // ---- the writer ----

  /** A chunk with a payload, or a list of a type with children. */
  datatype Node = Leaf(id: nat, payload: Bytes) | Folder(id: nat, form: nat, children: seq<Node>)

  /** The bytes of a node past its id and size, and all it takes with its padding. */
  function Size(n: Node): nat
    decreases n, 0
  {
    match n
    case Leaf(_, payload) => |payload|
    case Folder(_, _, children) => 4 + Total(children)
  }

  function Length(n: Node): nat
    decreases n, 1
  {
    8 + Size(n) + Size(n) % 2
  }

  function Total(nodes: seq<Node>): nat
    decreases nodes, 2
  {
    if |nodes| == 0 then 0 else Length(nodes[0]) + Total(nodes[1..])
  }

  function PutLittle(x: nat): (b: Bytes)
    ensures |b| == 4
  {
    [x % 256, x / 0x100 % 256, x / 0x1_0000 % 256, x / 0x100_0000 % 256]
  }

  function Pad(n: Node): Bytes { if Size(n) % 2 == 1 then [0] else [] }

  /** A node's bytes past its id and size. */
  function Inside(n: Node): Bytes
    decreases n, 0
  {
    match n
    case Leaf(_, payload) => payload
    case Folder(_, form, children) => PutLittle(form) + EncodedAll(children)
  }

  function Encoded(n: Node): Bytes
    decreases n, 1
  {
    PutLittle(n.id) + (PutLittle(Size(n)) + (Inside(n) + Pad(n)))
  }

  function EncodedAll(nodes: seq<Node>): Bytes
    decreases nodes, 2
  {
    if |nodes| == 0 then [] else Encoded(nodes[0]) + EncodedAll(nodes[1..])
  }

  /** Ids and sizes fit four bytes, and only a folder is called LIST or RIFF. */
  ghost predicate Writable(n: Node) {
    n.id < 0x1_0000_0000 && Size(n) < 0x1_0000_0000
    && match n
       case Leaf(id, _) => !KindOf(id).Nested?
       case Folder(id, _, children) => KindOf(id).Nested? && AllWritable(children)
  }

  ghost predicate AllWritable(nodes: seq<Node>) {
    |nodes| == 0 || (Writable(nodes[0]) && AllWritable(nodes[1..]))
  }

  /** How deep the lists go. */
  function Height(nodes: seq<Node>): nat {
    if |nodes| == 0 then 0
    else
      var here := match nodes[0] case Leaf(_, _) => 0 case Folder(_, _, children) => 1 + Height(children);
      Max(here, Height(nodes[1..]))
  }

  /** The stream chunks of nodes written from p on, in document order, as far as a head of `len` bytes shows their id
      and size. */
  function Streams(nodes: seq<Node>, p: nat, len: nat): seq<Visit> {
    if |nodes| == 0 || p + 8 > len then []
    else
      var n := nodes[0];
      var here := match n
        case Leaf(id, _) =>
          if id == STRH then [Visit(StreamHeader, p + 8)] else if id == STRF then [Visit(StreamFormat, p + 8)] else []
        case Folder(_, _, children) => Streams(children, p + 12, len);
      here + Streams(nodes[1..], p + Length(n), len)
  }

  /** A reader sees the chunks of these nodes, as far as `len` shows them. */
  ghost predicate Sees(read: Reader, len: nat, p: nat, nodes: seq<Node>)
    decreases nodes
  {
    |nodes| == 0
    || ((p + 8 <= len ==> read(p) == Chunk(KindOf(nodes[0].id), Size(nodes[0])))
        && (nodes[0].Folder? ==> Sees(read, len, p + 12, nodes[0].children))
        && Sees(read, len, p + Length(nodes[0]), nodes[1..]))
  }

  lemma {:induction false} TotalIsEven(nodes: seq<Node>)
    ensures Total(nodes) % 2 == 0
    decreases |nodes|
  {
    if |nodes| > 0 {
      TotalIsEven(nodes[1..]);
    }
  }

  /** The walk over nodes written from p on, within an end that is theirs, the head's, or up to seven bytes later: the
      four it overshoots by never reach another chunk. */
  lemma {:induction false} VisitsStreams(read: Reader, len: nat, p: nat, end: nat, depth: nat, nodes: seq<Node>)
    requires AllWritable(nodes) && Sees(read, len, p, nodes) && depth + Height(nodes) <= MAX_DEPTH
    requires Min(p + Total(nodes), len) <= end < p + Total(nodes) + 8
    ensures Visits(read, len, p, end, depth) == Streams(nodes, p, len)
    decreases nodes
  {
    if |nodes| > 0 && p + 8 <= len {
      var n, rest := nodes[0], nodes[1..];
      var body := p + 8;
      VisitsStreams(read, len, p + Length(n), end, depth, rest);
      if n.Folder? {
        VisitsFolder(read, len, p, depth, nodes);
      }
    }
  }

  lemma {:induction false} VisitsFolder(read: Reader, len: nat, p: nat, depth: nat, nodes: seq<Node>)
    requires |nodes| > 0 && nodes[0].Folder? && p + 8 <= len
    requires AllWritable(nodes) && Sees(read, len, p, nodes) && depth + Height(nodes) <= MAX_DEPTH
    ensures Visits(read, len, p + 12, Stop(p + 8, Size(nodes[0]), len), depth + 1)
            == Streams(nodes[0].children, p + 12, len)
    decreases nodes, 0
  {
    VisitsStreams(read, len, p + 12, Stop(p + 8, Size(nodes[0]), len), depth + 1, nodes[0].children);
  }

  lemma {:induction false} Digits(x: nat)
    requires x < 0x1_0000_0000
    ensures x % 256 + 0x100 * (x / 0x100 % 256) + 0x1_0000 * (x / 0x1_0000 % 256) + 0x100_0000 * (x / 0x100_0000 % 256)
            == x
  {
  }

  lemma {:induction false} ReadsLittle(buf: Bytes, p: nat, x: nat)
    requires x < 0x1_0000_0000 && Spells(buf, p, PutLittle(x))
    ensures Little(buf, p) == x
  {
    var b := PutLittle(x);
    assert Same(buf, p, b, 0) && Same(buf, p, b, 1) && Same(buf, p, b, 2) && Same(buf, p, b, 3);
    Digits(x);
  }

  lemma {:induction false} EncodedLength(nodes: seq<Node>)
    requires AllWritable(nodes)
    ensures |EncodedAll(nodes)| == Total(nodes)
    decreases nodes
  {
    if |nodes| > 0 {
      NodeLength(nodes[0]);
      EncodedLength(nodes[1..]);
    }
  }

  lemma {:induction false} NodeLength(n: Node)
    requires Writable(n)
    ensures |Inside(n)| == Size(n) && |Encoded(n)| == Length(n)
    decreases n, 0
  {
    if n.Folder? {
      EncodedLength(n.children);
    }
  }

  lemma {:induction false} SpellsNode(buf: Bytes, p: nat, n: Node)
    requires Writable(n) && Spells(buf, p, Encoded(n))
    ensures Little(buf, p) == n.id && Little(buf, p + 4) == Size(n)
            && (n.Folder? ==> Spells(buf, p + 12, EncodedAll(n.children)))
  {
    var rest := Inside(n) + Pad(n);
    NodeLength(n);
    SpellsParts(buf, p, PutLittle(n.id), PutLittle(Size(n)) + rest);
    SpellsParts(buf, p + 4, PutLittle(Size(n)), rest);
    SpellsParts(buf, p + 8, Inside(n), Pad(n));
    ReadsLittle(buf, p, n.id);
    ReadsLittle(buf, p + 4, Size(n));
    if n.Folder? {
      SpellsParts(buf, p + 8, PutLittle(n.form), EncodedAll(n.children));
    }
  }

  lemma {:induction false} SeesWritten(buf: Bytes, len: nat, p: nat, nodes: seq<Node>)
    requires AllWritable(nodes) && len <= |buf| && Spells(buf, p, EncodedAll(nodes))
    ensures Sees(Reading(buf, len), len, p, nodes)
    decreases nodes
  {
    if |nodes| > 0 {
      var n, rest := nodes[0], nodes[1..];
      SpellsParts(buf, p, Encoded(n), EncodedAll(rest));
      NodeLength(n);
      SpellsNode(buf, p, n);
      if n.Folder? {
        SeesWritten(buf, len, p + 12, n.children);
      }
      SeesWritten(buf, len, p + Length(n), rest);
    }
  }

  /** The walk inverts the writer: of any tree of chunks, to the depth the parser allows and wherever the head is cut, it
      visits exactly the stream headers and formats the head shows, each once and in document order. `p` is where the
      file's own type ends. */
  lemma {:induction false} WalkInvertsWriter(buf: Bytes, p: nat, cut: nat, nodes: seq<Node>)
    requires AllWritable(nodes) && Height(nodes) <= MAX_DEPTH
    requires Spells(buf, p, EncodedAll(nodes)) && |buf| == p + Total(nodes) && cut <= |buf|
    ensures Visits(Reading(buf, cut), cut, p, cut, 0) == Streams(nodes, p, cut)
  {
    SeesWritten(buf, cut, p, nodes);
    VisitsStreams(Reading(buf, cut), cut, p, cut, 0, nodes);
  }

  // ---- what the parser keeps ----

  /** What is known so far: the kind of the last stream header, the first codec named, the audio streams, and the
      channels of the richest of them. */
  datatype Facts = Facts(last: nat, codec: nat, audio: nat, channels: nat)

  const NOTHING := Facts(0, 0, 0, 0)

  /** A channel count, rounded down to one a layout is named for. */
  function Layout(n: nat): nat {
    if n >= 8 then 8 else if n >= 6 then 6 else if n >= 2 then 2 else if n == 1 then 1 else 0
  }

  /** What the first n chunks visited say. `named` maps a four-byte codec label to a codec, 0 when it is not known. */
  function FirstNoted(buf: Bytes, visits: seq<Visit>, n: nat, named: nat -> nat): Facts
    requires n <= |visits|
    decreases n, 0
  {
    if n == 0 then NOTHING else NotedAt(buf, visits, n, named)
  }

  /** And how the last of them adds to it. */
  function NotedAt(buf: Bytes, visits: seq<Visit>, n: nat, named: nat -> nat): Facts
    requires 0 < n <= |visits|
    decreases n - 1, 1
  {
    var f, v := FirstNoted(buf, visits, n - 1, named), visits[n - 1];
    match v.kind
    case StreamFormat =>
      if f.last != AUDS || v.body + 4 > |buf| then f
      else
        var (low: nat, high: nat) := (buf[v.body + 2], buf[v.body + 3]);
        if low + 0x100 * high > f.channels then f.(channels := Layout(low + 0x100 * high)) else f
    case StreamHeader =>
      if v.body + 8 > |buf| then f
      else
        var kind := Little(buf, v.body);
        var seen := f.(last := kind);
        if kind == VIDS then (if f.codec == 0 then seen.(codec := named(Little(buf, v.body + 4))) else seen)
        else if kind == AUDS then seen.(audio := f.audio + 1)
        else seen
    case _ => f
  }

  lemma {:induction false} NotedPrefix(buf: Bytes, a: seq<Visit>, b: seq<Visit>, n: nat, named: nat -> nat)
    requires n <= |a|
    ensures FirstNoted(buf, a + b, n, named) == FirstNoted(buf, a, n, named)
    decreases n
  {
    if n > 0 {
      NotedPrefix(buf, a, b, n - 1, named);
      assert NotedAt(buf, a + b, n, named) == NotedAt(buf, a, n, named);
    }
  }

  predicate IsLayout(m: nat) {
    m == 0 || m == 1 || m == 2 || m == 6 || m == 8
  }

  /** A layout is the most channels, of those a layout is named for, that are there. */
  lemma {:induction false} LayoutIsLargest(n: nat)
    ensures IsLayout(Layout(n)) && Layout(n) <= n && forall m: nat :: IsLayout(m) && m <= n ==> m <= Layout(n)
  {
  }

  /** A stream's header, of a kind, that lies within the head. */
  predicate IsHeader(buf: Bytes, v: Visit, kind: nat) {
    v.kind.StreamHeader? && v.body + 8 <= |buf| && Little(buf, v.body) == kind
  }

  /** The kind the last of the first n headers says, 0 when there is none. */
  function LastKind(buf: Bytes, visits: seq<Visit>, n: nat): nat
    requires n <= |visits|
  {
    if n == 0 then 0
    else if visits[n - 1].kind.StreamHeader? && visits[n - 1].body + 8 <= |buf| then Little(buf, visits[n - 1].body)
    else LastKind(buf, visits, n - 1)
  }

  function Headers(buf: Bytes, visits: seq<Visit>, n: nat, kind: nat): nat
    requires n <= |visits|
  {
    if n == 0 then 0 else Headers(buf, visits, n - 1, kind) + if IsHeader(buf, visits[n - 1], kind) then 1 else 0
  }

  /** A format that follows an audio header. */
  predicate IsAudioFormat(buf: Bytes, visits: seq<Visit>, i: nat)
    requires i < |visits|
  {
    visits[i].kind.StreamFormat? && visits[i].body + 4 <= |buf| && LastKind(buf, visits, i) == AUDS
  }

  /** How many channels it says, in the second of its two-byte fields. */
  function ChannelsAt(buf: Bytes, v: Visit): nat
    requires v.body + 4 <= |buf|
  {
    var (low: nat, high: nat) := (buf[v.body + 2], buf[v.body + 3]); low + 256 * high
  }

  /** The codec is that of the first video header that names one; the channels those of the richest audio format. */
  ghost predicate Known(buf: Bytes, visits: seq<Visit>, n: nat, named: nat -> nat, f: Facts)
    requires n <= |visits|
  {
    f.last == LastKind(buf, visits, n) && f.audio == Headers(buf, visits, n, AUDS)
    && (f.codec == 0 ==> forall i :: 0 <= i < n ==> NamesNone(buf, visits[i], named))
    && (f.codec != 0 ==> exists i :: 0 <= i < n && FirstNamed(buf, visits, i, named, f.codec))
    && (forall i :: 0 <= i < n && IsAudioFormat(buf, visits, i) ==> Layout(ChannelsAt(buf, visits[i])) <= f.channels)
    && (f.channels > 0 ==>
          exists i :: 0 <= i < n && IsAudioFormat(buf, visits, i) && f.channels == Layout(ChannelsAt(buf, visits[i])))
  }

  predicate NamesNone(buf: Bytes, v: Visit, named: nat -> nat) {
    IsHeader(buf, v, VIDS) ==> named(Little(buf, v.body + 4)) == 0
  }

  ghost predicate FirstNamed(buf: Bytes, visits: seq<Visit>, i: nat, named: nat -> nat, codec: nat)
    requires i < |visits|
  {
    IsHeader(buf, visits[i], VIDS) && named(Little(buf, visits[i].body + 4)) == codec
    && forall j :: 0 <= j < i ==> NamesNone(buf, visits[j], named)
  }

  lemma {:induction false} FactsMean(buf: Bytes, visits: seq<Visit>, n: nat, named: nat -> nat)
    requires n <= |visits|
    ensures Known(buf, visits, n, named, FirstNoted(buf, visits, n, named))
  {
    if n > 0 {
      FactsMean(buf, visits, n - 1, named);
      var f, g, v := FirstNoted(buf, visits, n - 1, named), FirstNoted(buf, visits, n, named), visits[n - 1];
      assert g == NotedAt(buf, visits, n, named);
      CodecMeans(buf, visits, n, named, f, g);
      ChannelsMean(buf, visits, n, named, f, g);
    }
  }

  lemma {:induction false} CodecMeans(buf: Bytes, visits: seq<Visit>, n: nat, named: nat -> nat, f: Facts, g: Facts)
    requires 0 < n <= |visits| && Known(buf, visits, n - 1, named, f)
    requires f == FirstNoted(buf, visits, n - 1, named) && g == NotedAt(buf, visits, n, named)
    ensures g.codec == 0 ==> forall i :: 0 <= i < n ==> NamesNone(buf, visits[i], named)
    ensures g.codec != 0 ==> exists i :: 0 <= i < n && FirstNamed(buf, visits, i, named, g.codec)
  {
    if f.codec != 0 {
      var i :| 0 <= i < n - 1 && FirstNamed(buf, visits, i, named, f.codec);
      assert FirstNamed(buf, visits, i, named, g.codec);
    } else if g.codec != 0 {
      assert FirstNamed(buf, visits, n - 1, named, g.codec);
    }
  }

  lemma {:induction false} ChannelsMean(buf: Bytes, visits: seq<Visit>, n: nat, named: nat -> nat, f: Facts, g: Facts)
    requires 0 < n <= |visits| && Known(buf, visits, n - 1, named, f)
    requires f == FirstNoted(buf, visits, n - 1, named) && g == NotedAt(buf, visits, n, named)
    ensures forall i :: 0 <= i < n && IsAudioFormat(buf, visits, i) ==> Layout(ChannelsAt(buf, visits[i])) <= g.channels
    ensures g.channels > 0 ==>
              exists i :: 0 <= i < n && IsAudioFormat(buf, visits, i) && g.channels == Layout(ChannelsAt(buf, visits[i]))
  {
    if IsAudioFormat(buf, visits, n - 1) {
      LayoutIsLargest(ChannelsAt(buf, visits[n - 1]));
      if f.channels > 0 {
        var i :| 0 <= i < n - 1 && IsAudioFormat(buf, visits, i) && f.channels == Layout(ChannelsAt(buf, visits[i]));
        LayoutIsLargest(ChannelsAt(buf, visits[i]));
        LayoutGrows(ChannelsAt(buf, visits[i]), ChannelsAt(buf, visits[n - 1]));
      }
    } else if f.channels > 0 {
      var i :| 0 <= i < n - 1 && IsAudioFormat(buf, visits, i) && f.channels == Layout(ChannelsAt(buf, visits[i]));
    }
  }

  /** A count above a layout has one at least as large. */
  lemma {:induction false} LayoutGrows(a: nat, b: nat)
    ensures b > Layout(a) ==> Layout(b) >= Layout(a)
    ensures b <= Layout(a) ==> Layout(b) <= Layout(a)
  {
  }

  class Parser {
    const head: Bytes
    const named: nat -> nat
    var last: nat
    var codec: nat
    var audio: nat
    var channels: nat
    ghost var visited: seq<Visit>

    constructor (head: Bytes, named: nat -> nat)
      ensures this.head == head && this.named == named && Valid() && visited == []
    {
      this.head, this.named := head, named;
      last, codec, audio, channels := 0, 0, 0, 0;
      visited := [];
    }

    function Known(): Facts
      reads this
    {
      Facts(last, codec, audio, channels)
    }

    /** What is known is what the chunks visited say. */
    ghost predicate Valid()
      reads this
    {
      Known() == FirstNoted(head, visited, |visited|, named)
    }

    method Note(v: Visit)
      requires Valid()
      modifies this
      ensures Valid() && visited == old(visited) + [v]
    {
      NotedPrefix(head, visited, [v], |visited|, named);
      if v.kind.StreamFormat? {
        if last == AUDS && v.body + 4 <= |head| {
          var (low: nat, high: nat) := (head[v.body + 2], head[v.body + 3]);
          var n := low + 0x100 * high;
          if n > channels {
            channels := Layout(n);
          }
        }
      } else if v.kind.StreamHeader? && v.body + 8 <= |head| {
        var kind := Little(head, v.body);
        if kind == VIDS {
          if codec == 0 {
            codec := named(Little(head, v.body + 4));
          }
        } else if kind == AUDS {
          audio := audio + 1;
        }
        last := kind;
      }
      visited := visited + [v];
      assert FirstNoted(head, visited, |visited|, named) == NotedAt(head, visited, |visited|, named);
    }

    /** parseAVI, past the file's own type. */
    method Parse(from: nat)
      requires Valid() && visited == []
      modifies this
      ensures Valid() && visited == Visits(Reading(head, |head|), |head|, from, |head|, 0)
    {
      Walk(from, |head|, 0, Reading(head, |head|));
    }

    /** The recursive walk. */
    method Walk(start: nat, end: nat, depth: nat, ghost read: Reader)
      requires Valid() && Reads(read, head)
      modifies this
      ensures Valid() && visited == old(visited) + Visits(read, |head|, start, end, depth)
      decreases if depth <= MAX_DEPTH then MAX_DEPTH + 1 - depth else 0, 1
    {
      if depth > MAX_DEPTH {
        return;
      }
      ghost var before := visited;
      ghost var all := Visits(read, |head|, start, end, depth);
      var i := start;
      while i + 8 <= end && i + 8 <= |head|
        invariant Valid() && before + all == visited + Visits(read, |head|, i, end, depth)
        decreases |head| - i
      {
        VisitsRound(read, |head|, i, end, depth, visited);
        var size := Enter(i, depth, read);
        i := i + 8 + size;
        if size % 2 == 1 {
          i := i + 1;
        }
      }
    }

    /** The eight bytes a chunk begins with. */
    method ChunkHead(i: nat, ghost read: Reader) returns (kind: Kind, size: nat)
      requires i + 8 <= |head| && Reads(read, head)
      ensures kind == read(i).kind && size == read(i).size
    {
      ReadsChunk(read, head, i);
      kind, size := KindOf(Little(head, i)), Little(head, i + 4);
    }

    /** One chunk: a list is walked, a stream's header or format noted. */
    method Enter(i: nat, depth: nat, ghost read: Reader) returns (size: nat)
      requires Valid() && depth <= MAX_DEPTH && i + 8 <= |head| && Reads(read, head)
      modifies this
      ensures Valid() && visited == old(visited) + Within(read, |head|, i, depth) && size == read(i).size
      decreases MAX_DEPTH + 1 - depth, 0
    {
      var kind;
      kind, size := ChunkHead(i, read);
      var body := i + 8;
      if kind.Nested? {
        var stop := body + 4 + size;
        if stop > |head| {
          stop := |head|;
        }
        Walk(body + 4, stop, depth + 1, read);
      } else if kind.StreamHeader? || kind.StreamFormat? {
        Note(Visit(kind, body));
      }
    }
  }

  /** What one chunk adds to the visits. */
  function Within(read: Reader, len: nat, i: nat, depth: nat): seq<Visit>
    requires depth <= MAX_DEPTH
  {
    var c, body := read(i), i + 8;
    if c.kind.Nested? then Visits(read, len, body + 4, Stop(body, c.size, len), depth + 1) else Here(c.kind, body)
  }

  lemma {:induction false} ReadsChunk(read: Reader, buf: Bytes, i: nat)
    requires Reads(read, buf) && i + 8 <= |buf|
    ensures read(i) == Chunk(KindOf(Little(buf, i)), Little(buf, i + 4))
  {
    assert read(i) == ChunkAt(buf, i);
  }

  lemma {:induction false} VisitsRound(read: Reader, len: nat, i: nat, end: nat, depth: nat, before: seq<Visit>)
    requires depth <= MAX_DEPTH && i + 8 <= end && i + 8 <= len
    ensures before + Visits(read, len, i, end, depth)
            == before + Within(read, len, i, depth) + Visits(read, len, Next(i + 8, read(i).size), end, depth)
  {
    var within, rest := Within(read, len, i, depth), Visits(read, len, Next(i + 8, read(i).size), end, depth);
    assert Visits(read, len, i, end, depth) == within + rest;
    assert before + (within + rest) == before + within + rest;
  }
}
