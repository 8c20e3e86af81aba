// What a release is worth in the list, and the tiers that keeps apart (internal/scout/rank.go,
// internal/scout/client.go).
//
// A title is what the patterns find in it, each one a boolean; any combination may occur.
module Scores {
  import opened Common

  const MIB := 1_048_576
  const GIB := 1_073_741_824
  const FAKE_4K_FLOOR := 700 * MIB
  const JUNK_SINK := 100_000
  const CACHED_BONUS := 8000
  const PREFERENCE_SINK := 5000
  const WRONG_SHOW_SINK := 30_000

  // ---- quality ----

  datatype Lines = P2160 | P1440 | P1080 | P720 | P576 | P540 | P480 | Untagged
  datatype Picture = Remux | Bluray | WebDl | WebRip | Web | NoPicture
  datatype Range = DolbyVision | Hdr10Plus | Hdr | Sdr
  datatype Audio = Eac3Atmos | Eac3 | Ac3 | Lossless | Dts | AtmosOnly | NoAudio

  /** What the title says: for each list of patterns tried in turn, the first that matches. `lines` is the first of the
      resolution patterns in the scorer's order, `uhd` whether 4k or uhd appears. */
  datatype Title = Title(junk: bool, lines: Lines, uhd: bool, picture: Picture, hdtv: bool, dvdRip: bool, lowSource: bool,
                         range: Range, audio: Audio, is4k: bool, av1: bool, threeD: bool, hardSubs: bool)

  datatype Release = Release(title: Title, size: Option<int>, cached: bool)

  function Base(t: Title, size: Option<int>): int {
    match t.lines
    case P2160 => if size.Some? && size.value < FAKE_4K_FLOOR then 1080 else 4000
    case P1440 => 1440
    case P1080 => 1080
    case P720 => 720
    case P576 => 576
    case P540 => 540
    case P480 => 480
    case Untagged => if t.uhd && size.Some? && size.value > 3 * GIB then 4000 else 100
  }

  /** Six points a gibibyte, rounded half away from zero. */
  function Rounded(size: int): int {
    if size >= 0 then (12 * size + GIB) / (2 * GIB) else -((-12 * size + GIB) / (2 * GIB))
  }

  function SizeBonus(size: Option<int>): int {
    if size.None? then 0 else Min(Rounded(size.value), 600)
  }

  function PictureBonus(p: Picture): int {
    match p
    case Remux => 230
    case Bluray => 150
    case WebDl => 75
    case WebRip => 50
    case Web => 75
    case NoPicture => 0
  }

  function RangeBonus(r: Range): int {
    match r
    case DolbyVision => 30
    case Hdr10Plus => 24
    case Hdr => 18
    case Sdr => 0
  }

  function AudioBonus(a: Audio): int {
    match a
    case Eac3Atmos => 30
    case Eac3 => 20
    case Ac3 => 14
    case Lossless => 12
    case Dts => 8
    case AtmosOnly => 20
    case NoAudio => 0
  }

  /** What the title's own warnings cost. */
  function Penalties(t: Title): int {
    (if t.hdtv then 150 else 0) + (if t.dvdRip then 200 else 0) + (if t.lowSource then 300 else 0)
    + (if !t.av1 then 0 else if t.is4k then 1500 else 150)
    + (if t.threeD then 2000 else 0) + (if t.hardSubs then 200 else 0)
  }

  /** Quality alone: neither cached nor junk. */
  function Quality(r: Release): int {
    Base(r.title, r.size) + PictureBonus(r.title.picture) + RangeBonus(r.title.range) + AudioBonus(r.title.audio)
    + SizeBonus(r.size) - Penalties(r.title)
  }

  function Score(r: Release): int {
    Quality(r) + (if r.cached then CACHED_BONUS else 0) - (if r.title.junk then JUNK_SINK else 0)
  }

  /** qualityScoreLower, as it adds up. */
  method QualityScore(r: Release) returns (score: int)
    ensures score == Score(r)
  {
    var t := r.title;
    score := 0;
    if t.junk {
      score := score - JUNK_SINK;
    }
    if r.cached {
      score := score + CACHED_BONUS;
    }
    score := score + Base(t, r.size) + PictureBonus(t.picture) + RangeBonus(t.range) + AudioBonus(t.audio);
    if r.size.Some? {
      var add := Rounded(r.size.value);
      if add > 600 {
        add := 600;
      }
      score := score + add;
    }
    var warned := Warned(t);
    score := score - warned;
  }

  /** The title's warnings, one by one. */
  method Warned(t: Title) returns (cost: int)
    ensures cost == Penalties(t)
  {
    cost := 0;
    if t.hdtv {
      cost := cost + 150;
    }
    if t.dvdRip {
      cost := cost + 200;
    }
    if t.lowSource {
      cost := cost + 300;
    }
    if t.av1 {
      cost := cost + if t.is4k then 1500 else 150;
    }
    if t.threeD {
      cost := cost + 2000;
    }
    if t.hardSubs {
      cost := cost + 200;
    }
  }

  predicate SizeKnownNonNegative(r: Release) {
    r.size.Some? ==> r.size.value >= 0
  }

  const BEST: Release :=
    Release(Title(false, P2160, false, Remux, false, false, false, DolbyVision, Eac3Atmos, true, false, false, false),
            Some(100 * GIB), false)

  const WORST: Release :=
    Release(Title(false, Untagged, true, NoPicture, true, true, true, Sdr, NoAudio, true, true, true, true), None, false)

  /** The whole range of quality, which both ends of are reached: 4890, not 4860, and -4250
      for a release whose size is not negative. */
  lemma {:induction false} QualityRange(r: Release)
    ensures Quality(r) <= 4890 && (SizeKnownNonNegative(r) ==> Quality(r) >= 100 - Penalties(r.title) >= -4250)
    ensures Quality(BEST) == 4890 && Quality(WORST) == -4250
  {
  }

  // ---- what is better scores higher ----

  /** How many lines a title says; none is the least. */
  function LinesOf(l: Lines): int {
    match l
    case P2160 => 2160
    case P1440 => 1440
    case P1080 => 1080
    case P720 => 720
    case P576 => 576
    case P540 => 540
    case P480 => 480
    case Untagged => 0
  }

  function PictureRank(p: Picture): int {
    match p
    case Remux => 4
    case Bluray => 3
    case WebDl => 2
    case Web => 2
    case WebRip => 1
    case NoPicture => 0
  }

  function RangeRank(r: Range): int {
    match r
    case DolbyVision => 3
    case Hdr10Plus => 2
    case Hdr => 1
    case Sdr => 0
  }

  /** What is delivered as it is comes before what has to be bridged. */
  function AudioRank(a: Audio): int {
    match a
    case Eac3Atmos => 5
    case Eac3 => 4
    case AtmosOnly => 4
    case Ac3 => 3
    case Lossless => 2
    case Dts => 1
    case NoAudio => 0
  }

  lemma {:induction false} BaseGrows(t: Title, size: Option<int>, l: Lines)
    requires LinesOf(t.lines) > LinesOf(l)
    ensures var less := t.(lines := l);
            if t.lines == P2160 && size.Some? && size.value < 734_003_200 then
              Base(t, size) == Base(t.(lines := P1080), size)
            else if l == Untagged && t.uhd && size.Some? && size.value > 3_221_225_472 then
              Base(less, size) == Base(t.(lines := P2160), size)
            else Base(t, size) > Base(less, size)
  {
    BaseIs(t, size);
    BaseIs(t.(lines := l), size);
    BaseIs(t.(lines := P1080), size);
    BaseIs(t.(lines := P2160), size);
  }

  lemma {:induction false} BaseIs(t: Title, size: Option<int>)
    ensures 480 <= LinesOf(t.lines) <= 1440 ==> Base(t, size) == LinesOf(t.lines)
    ensures LinesOf(t.lines) > 1440 ==> Base(t, size) == if size.Some? && size.value < 734_003_200 then 1080 else 4000
    ensures LinesOf(t.lines) < 480 ==>
              Base(t, size) == if t.uhd && size.Some? && size.value > 3_221_225_472 then 4000 else 100
    ensures LinesOf(t.lines) > 1440 <==> t.lines == P2160
    ensures LinesOf(t.lines) < 480 <==> t.lines == Untagged
  {
  }

  /** Quality is the sum of what each thing says on its own. */
  lemma {:induction false} LinesAlone(r: Release, l: Lines)
    ensures var other := r.title.(lines := l);
            Quality(r) - Quality(r.(title := other)) == Base(r.title, r.size) - Base(other, r.size)
  {
    assert Penalties(r.title.(lines := l)) == Penalties(r.title);
  }

  /** Of two releases alike in all else, the one whose title says more lines is worth more; but a 4K of under 700 MiB is
      worth what 1080p is, and a bare 4k of over 3 GiB what 2160p of that size is. */
  lemma {:induction false} MoreLinesScoreHigher(r: Release, l: Lines)
    requires LinesOf(r.title.lines) > LinesOf(l)
    ensures var less := r.(title := r.title.(lines := l));
            if r.title.lines == P2160 && r.size.Some? && r.size.value < 734_003_200 then
              Quality(r) == Quality(r.(title := r.title.(lines := P1080)))
            else if l == Untagged && r.title.uhd && r.size.Some? && r.size.value > 3_221_225_472 then
              Quality(less) == Quality(r.(title := r.title.(lines := P2160)))
            else Quality(r) > Quality(less)
  {
    BaseGrows(r.title, r.size, l);
    LinesAlone(r, l);
    LinesAlone(r, P1080);
    LinesAlone(r, P2160);
  }

  /** So with the source of the picture, its range and the sound. */
  lemma {:induction false} BetterPictureScoresHigher(r: Release, p: Picture)
    ensures Quality(r) > Quality(r.(title := r.title.(picture := p))) <==> PictureRank(r.title.picture) > PictureRank(p)
  {
    var other := r.title.(picture := p);
    assert Penalties(other) == Penalties(r.title) && Base(other, r.size) == Base(r.title, r.size);
  }

  lemma {:induction false} BetterRangeScoresHigher(r: Release, d: Range)
    ensures Quality(r) > Quality(r.(title := r.title.(range := d))) <==> RangeRank(r.title.range) > RangeRank(d)
  {
    var other := r.title.(range := d);
    assert Penalties(other) == Penalties(r.title) && Base(other, r.size) == Base(r.title, r.size);
  }

  lemma {:induction false} BetterSoundScoresHigher(r: Release, a: Audio)
    ensures Quality(r) > Quality(r.(title := r.title.(audio := a))) <==> AudioRank(r.title.audio) > AudioRank(a)
  {
    var other := r.title.(audio := a);
    assert Penalties(other) == Penalties(r.title) && Base(other, r.size) == Base(r.title, r.size);
  }

  /** Two releases alike but for their warnings. */
  predicate AlikeButWarnings(x: Title, y: Title) {
    x.lines == y.lines && x.uhd == y.uhd && x.picture == y.picture && x.range == y.range && x.audio == y.audio
  }

  /** Each warning costs something: of two releases alike in all else, one with more of them is worth less. */
  lemma {:induction false} WarningsScoreLower(r: Release, t: Title)
    requires AlikeButWarnings(r.title, t) && r.title != t.(junk := r.title.junk)
    requires (t.hdtv ==> r.title.hdtv) && (t.dvdRip ==> r.title.dvdRip) && (t.lowSource ==> r.title.lowSource)
    requires (t.av1 ==> r.title.av1) && (t.threeD ==> r.title.threeD) && (t.hardSubs ==> r.title.hardSubs)
    requires t.is4k == r.title.is4k
    ensures Quality(r) < Quality(r.(title := t))
  {
    assert Penalties(r.title) > Penalties(t);
    assert Base(r.title, r.size) == Base(t, r.size);
  }

  /** A size is rounded to the nearest point, a half away from zero. */
  lemma {:induction false} RoundsToNearest(size: int)
    ensures size >= 0 ==> 2 * GIB * Rounded(size) - GIB <= 12 * size < 2 * GIB * Rounded(size) + GIB
    ensures size < 0 ==> 2 * GIB * Rounded(size) - GIB < 12 * size <= 2 * GIB * Rounded(size) + GIB
  {
    var n := if size >= 0 then 12 * size + GIB else -12 * size + GIB;
    assert n / (2 * GIB) * (2 * GIB) <= n < n / (2 * GIB) * (2 * GIB) + 2 * GIB;
  }

  /** A larger file never scores less for its size alone, no more than 600 for it, and each gibibyte up to there six. */
  lemma {:induction false} SizeCounts(small: int, large: int)
    requires 0 <= small <= large
    ensures 0 <= SizeBonus(Some(small)) <= SizeBonus(Some(large)) <= 600 && SizeBonus(None) == 0
    ensures large % GIB == 0 && large <= 100 * GIB ==> SizeBonus(Some(large)) == 6 * (large / GIB)
    ensures large >= 100 * GIB ==> SizeBonus(Some(large)) == 600
  {
    if large % GIB == 0 {
      var n := large / GIB;
      assert large == n * GIB;
      assert (12 * large + GIB) / (2 * GIB) == 6 * n;
    }
  }

  // ---- what a browser has to convert ----

  datatype Codec = H264 | Hevc | Av1 | Vp9 | Unnamed | OtherCodec
  datatype Track = Aac | DolbyDigital | Flac | OtherTrack

  /** What a browser reports it decodes: levels, 0 for none. */
  datatype Browser = Browser(h264: int, high10: int, hevcMain: int, hevcMain10: int, hevcHigh: int, av1: int,
                             av1Main10: int, hdr: bool, av1Hdr: bool, vp9: bool, vp9Profile2: bool, dvP5: bool,
                             eac3: bool, flac: bool)

  /** What is known of a release's streams. `opens` is whether den-remux opens the container at all. */
  datatype Streams = Streams(threeD: bool, opens: bool, dvProfile: int, dvGuess: int, uhd: bool, tenBit: bool,
                             level: int, codec: Codec, probed: bool, hdr: bool, highTier: bool, track: Track)

  const CONVERT_AUDIO := 300
  const UNNAMED_VIDEO := 300
  const CONVERT_VIDEO := 6000
  const NEVER_PLAYS := 60000

  predicate Beyond(a: Streams, most: int, uhdLevel: int) {
    if a.level > 0 then a.level > most else a.uhd && most < uhdLevel
  }

  function ProfileCost(p: Browser, a: Streams): int {
    (if a.dvProfile == 5 && !p.dvP5 then 2 * CONVERT_VIDEO else 0)
    + (if a.dvProfile == 0 && a.dvGuess == 5 && !p.dvP5 then CONVERT_VIDEO else 0)
  }

  /** None when the video never plays. */
  function VideoCost(p: Browser, a: Streams): Option<int> {
    match a.codec
    case H264 =>
      var most := if a.tenBit && (a.probed || !a.hdr) then p.high10 else p.h264;
      if most == 0 || Beyond(a, most, 51) then None else Some(0)
    case Hevc =>
      var main := if a.tenBit then p.hevcMain10 else Max(p.hevcMain10, p.hevcMain);
      var most := if a.highTier then p.hevcHigh else main;
      Some(if most == 0 || Beyond(a, most, 150) || (a.hdr && !p.hdr) then CONVERT_VIDEO else 0)
    case Av1 =>
      var most := if a.tenBit then p.av1Main10 else Max(p.av1Main10, p.av1);
      if most == 0 || a.highTier || Beyond(a, most, 12) || (a.hdr && !p.av1Hdr) then None else Some(0)
    case Vp9 => if (if a.tenBit then p.vp9Profile2 else p.vp9) then Some(0) else None
    case Unnamed => Some(UNNAMED_VIDEO)
    case OtherCodec => None
  }

  function TrackCost(p: Browser, a: Streams): int {
    match a.track
    case Aac => 0
    case DolbyDigital => if p.eac3 then 0 else CONVERT_AUDIO
    case Flac => if p.flac then 0 else CONVERT_AUDIO
    case OtherTrack => CONVERT_AUDIO
  }

  function Cost(p: Browser, a: Streams): int {
    if a.threeD || !a.opens || VideoCost(p, a).None? then NEVER_PLAYS
    else ProfileCost(p, a) + VideoCost(p, a).value + TrackCost(p, a)
  }

  /** cost, as it adds up. */
  method CostOf(p: Browser, a: Streams) returns (cost: int)
    ensures cost == Cost(p, a)
  {
    if a.threeD || !a.opens {
      return NEVER_PLAYS;
    }
    cost := 0;
    if a.dvProfile == 5 && !p.dvP5 {
      cost := cost + CONVERT_VIDEO * 2;
    }
    if a.dvProfile == 0 && a.dvGuess == 5 && !p.dvP5 {
      cost := cost + CONVERT_VIDEO;
    }
    var video := VideoCost(p, a);
    if video.None? {
      return NEVER_PLAYS;
    }
    cost := cost + video.value + TrackCost(p, a);
  }

  /** The video is transcoded, or its Dolby Vision profile is likely to need it. */
  predicate Transcodes(p: Browser, a: Streams) {
    ProfileCost(p, a) > 0 || (a.codec.Hevc? && VideoCost(p, a) == Some(CONVERT_VIDEO))
  }

  predicate Plays(p: Browser, a: Streams) {
    !a.threeD && a.opens && VideoCost(p, a).Some?
  }

  /** The most a transcode costs: Dolby Vision profile 5, a video and a track that the browser takes none of. */
  const HARD: Streams := Streams(false, true, 5, 0, false, false, 0, Hevc, true, false, false, OtherTrack)
  const PLAIN: Browser := Browser(0, 0, 0, 0, 0, 0, 0, false, false, false, false, false, false, false)

  /** The cost tiers, exactly: a release that plays as it is costs at most 600, one that is transcoded between 6000 and
      18,300, and one that never plays 60,000, so a cost tells which. Every end is reached. */
  lemma {:induction false} CostTiers(p: Browser, a: Streams)
    ensures var c := Cost(p, a);
            (Plays(p, a) && !Transcodes(p, a) <==> 0 <= c <= 600)
            && (Plays(p, a) && Transcodes(p, a) <==> 6000 <= c <= 18_300)
            && (!Plays(p, a) <==> c == NEVER_PLAYS)
            && (0 <= c <= 600 || 6000 <= c <= 18_300 || c == NEVER_PLAYS)
    ensures Cost(PLAIN, HARD) == 18_300 && Cost(PLAIN, HARD.(dvProfile := 8, track := Aac)) == 6000
    ensures Cost(PLAIN, HARD.(dvProfile := 8, codec := Unnamed)) == 600
    ensures Cost(PLAIN.(hevcMain := 93), HARD.(dvProfile := 8, track := Aac)) == 0
  {
  }

  // ---- tiers ----

  /** A browser that decodes at least as much. */
  predicate AtLeast(q: Browser, p: Browser) {
    q.h264 >= p.h264 >= 0 && q.high10 >= p.high10 >= 0 && q.hevcMain >= p.hevcMain >= 0
    && q.hevcMain10 >= p.hevcMain10 >= 0 && q.hevcHigh >= p.hevcHigh >= 0 && q.av1 >= p.av1 >= 0
    && q.av1Main10 >= p.av1Main10 >= 0 && (p.hdr ==> q.hdr) && (p.av1Hdr ==> q.av1Hdr) && (p.vp9 ==> q.vp9)
    && (p.vp9Profile2 ==> q.vp9Profile2) && (p.dvP5 ==> q.dvP5) && (p.eac3 ==> q.eac3) && (p.flac ==> q.flac)
  }

  /** A browser that decodes more never pays more, and pays nothing but for what has no name or no browser takes when it
      decodes everything. */
  lemma {:induction false} DecodingMoreCostsLess(p: Browser, q: Browser, a: Streams)
    requires AtLeast(q, p)
    ensures Cost(q, a) <= Cost(p, a)
  {
  }

  /** A decoder of this level takes the video: by the level it says, else by the level its picture needs at least. */
  predicate Takes(most: int, a: Streams, uhdLevel: int) {
    most > 0 && (if a.level > 0 then a.level <= most else a.uhd ==> most >= uhdLevel)
  }

  /** Exactly what plays, and what of that is transcoded. H.264, AV1 and VP9 play where the browser decodes them, of their
      depth, level, range and tier; HEVC and video nobody named always, but HEVC it does not decode is transcoded, and so
      is Dolby Vision profile 5, known or guessed, where the browser does not take it. */
  lemma {:induction false} PlaysExactly(p: Browser, a: Streams)
    requires AtLeast(p, p)
    ensures Plays(p, a)
            <==> !a.threeD && a.opens
                 && match a.codec
                    case H264 => Takes(if a.tenBit && (a.probed || !a.hdr) then p.high10 else p.h264, a, 51)
                    case Av1 =>
                      Takes(if a.tenBit then p.av1Main10 else Max(p.av1Main10, p.av1), a, 12) && !a.highTier
                      && (a.hdr ==> p.av1Hdr)
                    case Vp9 => if a.tenBit then p.vp9Profile2 else p.vp9
                    case OtherCodec => false
                    case _ => true
    ensures Transcodes(p, a)
            <==> (!p.dvP5 && (a.dvProfile == 5 || (a.dvProfile == 0 && a.dvGuess == 5)))
                 || (a.codec == Hevc
                     && !(Takes(if a.highTier then p.hevcHigh
                                else if a.tenBit then p.hevcMain10 else Max(p.hevcMain10, p.hevcMain), a, 150)
                          && (a.hdr ==> p.hdr)))
  {
  }

  /** And what it costs: 6,000 for a video that is transcoded, twice that for a known profile 5, 300 for one nobody named,
      and 300 for sound the browser does not decode; and what does not play 60,000. */
  lemma {:induction false} CostExactly(p: Browser, a: Streams)
    ensures Cost(p, a)
            == if !Plays(p, a) then 60_000
               else (if p.dvP5 then 0 else if a.dvProfile == 5 then 12_000
                     else if a.dvProfile == 0 && a.dvGuess == 5 then 6000 else 0)
                    + (if a.codec == Unnamed then 300
                       else if a.codec == Hevc && Transcodes(p.(dvP5 := true), a) then 6000 else 0)
                    + if a.track == Aac || (a.track == DolbyDigital && p.eac3) || (a.track == Flac && p.flac) then 0 else 300
  {
  }

  /** A release as it is listed: with what a browser pays for it, whether its known resolution is another than the
      preferred one, and whether its name says another show or episode. */
  datatype Listed = Listed(release: Release, cost: int, unpreferred: bool, wrongShow: bool)

  function Total(l: Listed): int {
    Score(l.release) - l.cost - (if l.unpreferred then PREFERENCE_SINK else 0)
    - (if l.wrongShow then WRONG_SHOW_SINK else 0)
  }

  predicate Costed(l: Listed) {
    SizeKnownNonNegative(l.release)
    && (0 <= l.cost <= 600 || 6000 <= l.cost <= 18_300 || l.cost == NEVER_PLAYS)
  }

  /** A release can only be of another resolution than the preferred one if its title has one. */
  predicate Sound(l: Listed) {
    Costed(l) && (l.unpreferred ==> !l.release.title.lines.Untagged?)
  }

  /** With no browser's report every release that names the show and episode outranks every one that names another. */
  lemma {:induction false} RightShowFirst(x: Listed, y: Listed)
    requires Costed(x) && Costed(y) && x.cost == 0 && !x.release.title.junk && !x.wrongShow && y.wrongShow
    ensures Total(x) > Total(y)
  {
    QualityRange(x.release);
    QualityRange(y.release);
  }

  /** A release that is not junk outranks all junk, unless it both never plays in this browser and names another show. */
  lemma {:induction false} JunkLast(x: Listed, y: Listed)
    requires Costed(x) && Costed(y) && !x.release.title.junk && y.release.title.junk
    requires x.cost != NEVER_PLAYS || !x.wrongShow
    ensures Total(x) > Total(y)
  {
    QualityRange(x.release);
    QualityRange(y.release);
  }

  /** What a release is worth for itself and its resolution. */
  function Worth(l: Listed): int {
    Score(l.release) - (if l.unpreferred then PREFERENCE_SINK else 0)
  }

  lemma {:induction false} WorthRange(l: Listed)
    requires Sound(l) && !l.release.title.junk
    ensures -8870 <= Worth(l) <= 12_890
  {
    QualityRange(l.release);
    if l.unpreferred {
      TaggedQuality(l.release);
    }
  }

  const BEST_JUNK: Listed := Listed(Release(BEST.title.(junk := true), BEST.size, true), 0, false, false)
  const BEST_CACHED: Listed := Listed(Release(BEST.title, BEST.size, true), 0, false, false)
  const PLAINEST: Release :=
    Release(Title(false, Untagged, false, NoPicture, false, false, false, Sdr, NoAudio, false, false, false, false), None,
            false)

  /** Nothing is worth less: every warning, and another resolution than the preferred one. */
  const POOREST: Listed := Listed(Release(WORST.title.(lines := P480), None, false), 0, true, false)

  /** The exception is real, and this is all of it: a release outranks all junk unless it never plays, names another
      show, and is worth no more than 2,890. */
  lemma {:induction false} JunkLine(x: Listed)
    requires Sound(x) && !x.release.title.junk
    ensures (forall y :: Sound(y) && y.release.title.junk ==> Total(x) > Total(y))
            <==> !(x.cost == NEVER_PLAYS && x.wrongShow) || Worth(x) > 2_890
    ensures Sound(BEST_JUNK) && Total(BEST_JUNK) == -87_110
    ensures var worst, best := Listed(WORST, NEVER_PLAYS, false, true),
                               BEST_CACHED.(cost := NEVER_PLAYS, wrongShow := true);
            Sound(worst) && Sound(best) && Total(worst) == -94_250 < -87_110 < Total(best)
    ensures var poorest := POOREST.(cost := NEVER_PLAYS, wrongShow := true);
            Sound(poorest) && Worth(poorest) == -8870 && Total(poorest) < -94_250
  {
    forall y | Sound(y) && y.release.title.junk ensures Total(y) <= -87_110 {
      QualityRange(y.release);
    }
    assert Sound(BEST_JUNK) && BEST_JUNK.release.title.junk && Total(BEST_JUNK) == -87_110;
    WorthRange(x);
  }

  /** Room for the cost: always, of a single transcode; a harder one has to be paid for in worth. */
  predicate Affords(x: Listed) {
    x.cost < 8_240 || (x.cost != NEVER_PLAYS && Worth(x) > x.cost - 17_110)
  }

  /** With a browser's report a release that names the show and episode does not outrank every one that names another: it
      does exactly when it affords its cost. */
  lemma {:induction false} WrongShowLine(x: Listed)
    requires Sound(x) && !x.release.title.junk && !x.wrongShow
    ensures (forall y :: Sound(y) && y.wrongShow ==> Total(x) > Total(y)) <==> Affords(x)
    ensures var right, wrong := Listed(PLAINEST, 18_300, false, false), BEST_CACHED.(wrongShow := true);
            Sound(right) && Sound(wrong) && Total(right) == -18_200 < Total(wrong) == -17_110
  {
    forall y | Sound(y) && y.wrongShow ensures Total(y) <= -17_110 {
      QualityRange(y.release);
    }
    var best := BEST_CACHED.(wrongShow := true);
    assert Sound(best) && best.wrongShow && Total(best) == -17_110;
    WorthRange(x);
  }

  /** Nor does a release that plays outrank every one that never does: it does exactly when it names the show and episode,
      or affords its cost. */
  lemma {:induction false} NeverPlaysLine(x: Listed)
    requires Sound(x) && !x.release.title.junk && x.cost != NEVER_PLAYS
    ensures (forall y :: Sound(y) && y.cost == NEVER_PLAYS ==> Total(x) > Total(y)) <==> !x.wrongShow || Affords(x)
    ensures var plays, never := Listed(PLAINEST, 18_300, false, true), BEST_CACHED.(cost := NEVER_PLAYS);
            Sound(plays) && Sound(never) && Total(plays) == -48_200 < Total(never) == -47_110
  {
    forall y | Sound(y) && y.cost == NEVER_PLAYS ensures Total(y) <= -47_110 {
      QualityRange(y.release);
    }
    var best := BEST_CACHED.(cost := NEVER_PLAYS);
    assert Sound(best) && best.cost == NEVER_PLAYS && Total(best) == -47_110;
    WorthRange(x);
  }

  /** A title with a resolution in it starts no lower than 480. */
  lemma {:induction false} TaggedQuality(r: Release)
    requires !r.title.lines.Untagged? && SizeKnownNonNegative(r)
    ensures Quality(r) >= 480 - Penalties(r.title)
  {
  }

  /** Alike in show and in resolution, with no browser's report: a cached release with penalties under 3,210 outranks every
      one that is not. */
  lemma {:induction false} CachedFirst(x: Listed, y: Listed)
    requires Costed(x) && Costed(y) && x.cost == 0 && x.wrongShow == y.wrongShow && x.unpreferred == y.unpreferred
    requires x.release.cached && !y.release.cached && !x.release.title.junk && Penalties(x.release.title) < 3210
    ensures Total(x) > Total(y)
  {
    QualityRange(x.release);
    QualityRange(y.release);
  }

  /** Even a cached 4K of the wrong resolution outranks a 1080p, or less, that has to be fetched. */
  lemma {:induction false} CachedBeatsPreference(x: Listed, y: Listed)
    requires Costed(x) && Costed(y) && x.cost == 0 && x.wrongShow == y.wrongShow
    requires x.release.cached && !y.release.cached && !x.release.title.junk
    requires x.release.title.lines == P2160 && (x.release.size.Some? ==> x.release.size.value >= FAKE_4K_FLOOR)
    requires LinesOf(y.release.title.lines) <= 1080 && !y.release.title.uhd
    ensures Total(x) > Total(y)
  {
    FourKStarts(x.release);
    FewLinesEnd(y.release);
  }

  lemma {:induction false} FourKStarts(r: Release)
    requires r.title.lines == P2160 && SizeKnownNonNegative(r) && (r.size.Some? ==> r.size.value >= FAKE_4K_FLOOR)
    ensures Quality(r) >= 4000 - 4350
  {
    assert Base(r.title, r.size) == 4000 && Penalties(r.title) <= 4350;
  }

  lemma {:induction false} FewLinesEnd(r: Release)
    requires LinesOf(r.title.lines) <= 1080 && !r.title.uhd
    ensures Quality(r) <= 1970
  {
    assert Base(r.title, r.size) <= 1080 && Penalties(r.title) >= 0;
  }

  /** A cached conversion does not beat every download: it does exactly when its quality is above what its cost leaves of
      the cached bonus. Of two alike in quality it does, when it is a single one. */
  lemma {:induction false} CachedConversionLine(x: Listed)
    requires Sound(x) && x.release.cached && !x.release.title.junk && !x.wrongShow && !x.unpreferred
    ensures (forall y :: Sound(y) && !y.release.cached ==> Total(x) > Total(y)) <==> Quality(x.release) > x.cost - 3_110
    ensures x.cost < 8000 <==> Total(x) > Total(Listed(x.release.(cached := false), 0, false, false))
  {
    forall y | Sound(y) && !y.release.cached ensures Total(y) <= 4890 {
      QualityRange(y.release);
    }
    assert Sound(Listed(BEST, 0, false, false)) && Total(Listed(BEST, 0, false, false)) == 4890;
  }

  /** Of two releases alike in being cached and in show, one of the preferred resolution with penalties under 590 outranks
      every one known to be of another; 590 is too much. */
  lemma {:induction false} PreferenceHolds(x: Listed, y: Listed)
    requires Costed(x) && Costed(y) && x.cost == 0 && y.cost >= 0 && x.wrongShow == y.wrongShow
    requires x.release.cached == y.release.cached && !x.release.title.junk
    requires !x.unpreferred && y.unpreferred && !x.release.title.lines.Untagged? && Penalties(x.release.title) < 590
    ensures Total(x) > Total(y)
  {
    TaggedQuality(x.release);
    QualityRange(y.release);
  }

  /** For a browser, of two releases alike in being cached, in show and in resolution, one that plays as it is with
      penalties under 610 outranks every one that has to be transcoded. */
  lemma {:induction false} PlaysAsItIsFirst(x: Listed, y: Listed)
    requires Costed(x) && Costed(y) && x.cost <= 600 && y.cost >= 6000
    requires x.release.cached == y.release.cached && x.wrongShow == y.wrongShow && x.unpreferred == y.unpreferred
    requires !x.release.title.junk && Penalties(x.release.title) < 610
    ensures Total(x) > Total(y)
  {
    QualityRange(x.release);
    QualityRange(y.release);
  }

  const LOW_AV1: Release :=
    Release(Title(false, P480, false, NoPicture, true, false, true, Sdr, NoAudio, false, true, false, false), None, false)
  const LOW_SUBBED: Release :=
    Release(Title(false, Untagged, false, NoPicture, true, false, true, Sdr, NoAudio, false, false, false, true), None,
            false)

  /** And both bounds are as good as they can be: penalties go up by fifties, and at 600, and at 650, two releases stand
      the other way round. */
  lemma {:induction false} BoundsAreTight(t: Title)
    ensures Penalties(t) % 50 == 0
    ensures var x, y := Listed(LOW_AV1, 0, false, false), Listed(BEST, 0, true, false);
            Sound(x) && Sound(y) && Penalties(LOW_AV1.title) == 600 && Total(x) < Total(y)
    ensures var x, y := Listed(LOW_SUBBED, 600, false, false), Listed(BEST, CONVERT_VIDEO, false, false);
            Sound(x) && Sound(y) && Penalties(LOW_SUBBED.title) == 650 && Total(x) < Total(y)
  {
  }
}
