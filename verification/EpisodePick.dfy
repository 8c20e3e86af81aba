// Which file of a torrent is played (internal/scout/season.go, internal/scout/stores.go).
//
// What the patterns make of a file's name is a handful of booleans: whether it is a video, whether it declares an
// episode at all, whether it names the one asked for, and whether that episode's bare number stands in it.
module EpisodePick {
  import opened Common

  datatype File = File(index: int, size: Option<int>, video: bool, labelled: bool, names: bool, bare: bool)

  datatype Want = Episode | Movie

  datatype Pick = Picked(index: int) | NoOpinion | Refused

  function SizeOf(f: File): int {
    if f.size.Some? then f.size.value else 0
  }

  // ---- choosing among files ----

  function Keep(files: seq<File>, n: nat, test: File -> bool): seq<File>
    requires n <= |files|
  {
    if n == 0 then []
    else if test(files[n - 1]) then Keep(files, n - 1, test) + [files[n - 1]]
    else Keep(files, n - 1, test)
  }

  function All(files: seq<File>, test: File -> bool): seq<File> {
    Keep(files, |files|, test)
  }

  const IsVideo := (f: File) => f.video
  const Names := (f: File) => f.names
  const Unlabelled := (f: File) => !f.labelled
  const Bare := (f: File) => f.bare

  /** The videos, or everything when nothing is a video. */
  function Pool(files: seq<File>): seq<File> {
    var videos := All(files, IsVideo);
    if |videos| == 0 then files else videos
  }

  /** The first of the largest. */
  function LargestOf(files: seq<File>, n: nat): File
    requires 0 < n <= |files|
  {
    if n == 1 then files[0]
    else
      var best := LargestOf(files, n - 1);
      if SizeOf(files[n - 1]) > SizeOf(best) then files[n - 1] else best
  }

  function Largest(files: seq<File>): File
    requires |files| > 0
  {
    LargestOf(files, |files|)
  }

  lemma {:induction false} KeepHolds(files: seq<File>, n: nat, test: File -> bool)
    requires n <= |files|
    ensures forall f :: f in Keep(files, n, test) <==> f in files[..n] && test(f)
    ensures |Keep(files, n, test)| <= n
  {
    if n > 0 {
      KeepHolds(files, n - 1, test);
      assert files[..n] == files[..n - 1] + [files[n - 1]];
    }
  }

  lemma {:induction false} AllHolds(files: seq<File>, test: File -> bool)
    ensures forall f :: f in All(files, test) <==> f in files && test(f)
    ensures |All(files, test)| <= |files|
  {
    KeepHolds(files, |files|, test);
    assert files[..|files|] == files;
  }

  lemma {:induction false} LargestHolds(files: seq<File>, n: nat)
    requires 0 < n <= |files|
    ensures var best := LargestOf(files, n);
            best in files[..n] && forall f <- files[..n] :: SizeOf(f) <= SizeOf(best)
  {
    assert files[..n] == files[..n - 1] + [files[n - 1]];
    if n > 1 {
      LargestHolds(files, n - 1);
    }
  }

  lemma {:induction false} LargestIs(files: seq<File>)
    requires |files| > 0
    ensures Largest(files) in files && forall f <- files :: SizeOf(f) <= SizeOf(Largest(files))
  {
    LargestHolds(files, |files|);
    assert files[..|files|] == files;
  }

  // ---- the episode ----

  function Labels(files: seq<File>): int {
    |Pool(files)| - |All(Pool(files), Unlabelled)|
  }

  /** pickEpisodeFile. */
  function PickEpisode(files: seq<File>): Pick {
    var pool := Pool(files);
    var matched, unlabelled := All(pool, Names), All(pool, Unlabelled);
    var bare := All(unlabelled, Bare);
    if |pool| == 0 then NoOpinion
    else if |matched| > 0 then Picked(Largest(matched).index)
    else if |bare| == 1 then Picked(bare[0].index)
    else if Labels(files) > 1 && Labels(files) > |unlabelled| then Refused
    else if |pool| > 1 then NoOpinion
    else Picked(Largest(pool).index)
  }

  function AmbiguousGuess(files: seq<File>): Pick {
    var bare := All(All(Pool(files), Unlabelled), Bare);
    if |bare| == 0 then NoOpinion else Picked(Largest(bare).index)
  }

  function LargestPlayable(files: seq<File>): File
    requires |files| > 0
  {
    Largest(Pool(files))
  }

  function LargestCandidate(files: seq<File>): File
    requires |files| > 0
  {
    var unlabelled := All(Pool(files), Unlabelled);
    if |unlabelled| > 0 then Largest(unlabelled) else LargestPlayable(files)
  }

  predicate FeatureSized(files: seq<File>, f: File)
    requires |files| > 0
  {
    var pool := Pool(files);
    var top := SizeOf(Largest(pool));
    (|pool| == |files| || f.video) && (f.size.None? || top == 0 || SizeOf(f) * 2 >= top)
  }

  predicate InRange(at: Option<int>, files: seq<File>) {
    at.Some? && 0 <= at.value < |files|
  }

  // ---- the three stores ----

  /** TorBox's selectFileID. `at` is the indexer's position, which passes through when it is out of range. */
  function SelectFileId(files: seq<File>, want: Want, at: Option<int>): Pick {
    var first := if want.Episode? then PickEpisode(files) else NoOpinion;
    if !first.NoOpinion? then first
    else if at.Some? then
      if !InRange(at, files) then Picked(at.value)
      else if want.Movie? && !FeatureSized(files, files[at.value]) then Picked(LargestPlayable(files).index)
      else Picked(files[at.value].index)
    else if want.Movie? then NoOpinion
    else if !AmbiguousGuess(files).NoOpinion? then AmbiguousGuess(files)
    else if |Pool(files)| > 0 then Picked(LargestCandidate(files).index)
    else NoOpinion
  }

  /** What Real-Debrid's and Premiumize's pickers share: they differ in what a position in range means. */
  function PickFrom(files: seq<File>, want: Want, at: Option<int>, raw: bool): Pick {
    var first := if want.Episode? then PickEpisode(files) else NoOpinion;
    if |files| == 0 then NoOpinion
    else if !first.NoOpinion? then first
    else if InRange(at, files) then Picked(if raw then at.value else files[at.value].index)
    else if want.Episode? && !AmbiguousGuess(files).NoOpinion? then AmbiguousGuess(files)
    else Picked((if want.Episode? then LargestCandidate(files) else LargestPlayable(files)).index)
  }

  function PickFileId(files: seq<File>, want: Want, at: Option<int>): Pick { PickFrom(files, want, at, false) }

  function PickIndex(files: seq<File>, want: Want, at: Option<int>): Pick { PickFrom(files, want, at, true) }

  lemma {:induction false} PoolHolds(files: seq<File>)
    ensures |files| > 0 ==> |Pool(files)| > 0
    ensures forall f <- Pool(files) :: f in files && (f.video || forall g <- files :: !g.video)
  {
    AllHolds(files, IsVideo);
    if |All(files, IsVideo)| == 0 {
      forall g | g in files ensures !g.video {
        assert IsVideo(g) ==> g in All(files, IsVideo);
      }
    }
  }

  /** A file that names the episode wins. If any of the playable files names it, every store plays the same one, the
      largest that does, whatever position the indexer gave. */
  lemma {:induction false} NamedEpisodeWins(files: seq<File>, at: Option<int>, f: File)
    requires f in Pool(files) && f.names
    ensures var matched := All(Pool(files), Names);
            |matched| > 0 && Largest(matched) in Pool(files) && Largest(matched).names
            && (forall g <- Pool(files) :: g.names ==> SizeOf(g) <= SizeOf(Largest(matched)))
            && SelectFileId(files, Episode, at) == PickFileId(files, Episode, at) == PickIndex(files, Episode, at)
               == Picked(Largest(matched).index)
  {
    var matched := All(Pool(files), Names);
    AllHolds(Pool(files), Names);
    assert Names(f) && f in matched;
    LargestIs(matched);
    PoolHolds(files);
    forall g | g in Pool(files) && g.names ensures SizeOf(g) <= SizeOf(Largest(matched)) {
      assert Names(g) && g in matched;
    }
  }

  /** The refusal, exactly: nothing names the episode, no one unlabelled file alone carries its number, and the files that
      declare another episode are two or more and more than those that declare none. */
  lemma {:induction false} RefusesExactly(files: seq<File>, at: Option<int>)
    ensures var unlabelled := All(Pool(files), Unlabelled);
            var refused := (forall f <- Pool(files) :: !f.names) && |All(unlabelled, Bare)| != 1
                           && Labels(files) > 1 && Labels(files) > |unlabelled|;
            (SelectFileId(files, Episode, at) == Refused <==> refused)
            && (PickFileId(files, Episode, at) == Refused <==> refused)
            && (PickIndex(files, Episode, at) == Refused <==> refused)
  {
    var pool := Pool(files);
    AllHolds(pool, Names);
    NoneMatched(pool);
    PoolHolds(files);
  }

  lemma {:induction false} NoneMatched(pool: seq<File>)
    ensures |All(pool, Names)| == 0 <==> forall f <- pool :: !f.names
  {
    AllHolds(pool, Names);
    if |All(pool, Names)| == 0 {
      forall f | f in pool ensures !f.names {
        assert Names(f) ==> f in All(pool, Names);
      }
    } else {
      assert All(pool, Names)[0] in All(pool, Names);
    }
  }

  /** A pick comes from an unlabelled playable file. */
  ghost predicate FromUnlabelled(files: seq<File>, p: Pick) {
    p.Picked? ==> exists f :: f in Pool(files) && !f.labelled && f.index == p.index
  }

  /** Never another episode: when no playable file names the episode and the indexer gives no position, then as long as
      one playable file declares no episode at all, no store plays a file that declares another. */
  lemma {:induction false} NeverAnotherEpisode(files: seq<File>, f: File)
    requires f in Pool(files) && !f.labelled && forall g <- Pool(files) :: !g.names
    ensures FromUnlabelled(files, SelectFileId(files, Episode, None))
    ensures FromUnlabelled(files, PickFileId(files, Episode, None))
    ensures FromUnlabelled(files, PickIndex(files, Episode, None))
  {
    var pool, unlabelled := Pool(files), All(Pool(files), Unlabelled);
    var bare := All(unlabelled, Bare);
    AllHolds(pool, Unlabelled);
    AllHolds(unlabelled, Bare);
    NoneMatched(pool);
    PoolHolds(files);
    assert Unlabelled(f) && f in unlabelled;
    LargestIs(unlabelled);
    assert Largest(unlabelled) in pool && !Largest(unlabelled).labelled;
    if |bare| > 0 {
      LargestIs(bare);
      assert bare[0] in bare && bare[0] in pool && !bare[0].labelled;
      assert Largest(bare) in pool && !Largest(bare).labelled;
    }
    if |pool| == 1 {
      assert pool[0] == f;
    }
  }

  /** No store falls back to a file that is not a video while the torrent has one. */
  lemma {:induction false} FallsBackToVideo(files: seq<File>, want: Want)
    requires |files| > 0 && exists f :: f in files && f.video
    ensures forall p :: p in {SelectFileId(files, want, None), PickFileId(files, want, None),
                              PickIndex(files, want, None)} && p.Picked? ==>
              exists f :: f in files && f.video && f.index == p.index
  {
    var pool, unlabelled := Pool(files), All(Pool(files), Unlabelled);
    var bare, matched := All(unlabelled, Bare), All(pool, Names);
    PoolHolds(files);
    AllHolds(pool, Unlabelled);
    AllHolds(unlabelled, Bare);
    AllHolds(pool, Names);
    LargestIs(pool);
    if |matched| > 0 {
      LargestIs(matched);
    }
    if |unlabelled| > 0 {
      LargestIs(unlabelled);
    }
    if |bare| > 0 {
      LargestIs(bare);
      assert bare[0] in bare;
    }
  }

  // ---- which file, exactly ----

  /** Playable, declares no episode, and the episode's bare number stands in its name. */
  const Weak := (f: File) => !f.labelled && f.bare
  const Any := (f: File) => true

  /** The size a file states; one that states none counts as empty. */
  function Stated(f: File): int {
    match f.size
    case Some(n) => n
    case None => 0
  }

  /** The file at k passes the test, no file that does is larger, and none before it is as large. */
  ghost predicate BestAt(files: seq<File>, n: nat, test: File -> bool, k: int)
    requires n <= |files|
  {
    0 <= k < n && test(files[k]) && (forall i :: 0 <= i < n && test(files[i]) ==> Stated(files[i]) <= Stated(files[k]))
    && forall i :: 0 <= i < k && test(files[i]) ==> Stated(files[i]) < Stated(files[k])
  }

  lemma {:induction false} LargestPlus(files: seq<File>, f: File)
    requires |files| > 0
    ensures Largest(files + [f]) == if SizeOf(f) > SizeOf(Largest(files)) then f else Largest(files)
  {
    LargestPrefix(files, files + [f], |files|);
  }

  lemma {:induction false} LargestPrefix(files: seq<File>, more: seq<File>, n: nat)
    requires 0 < n <= |files| && n <= |more| && forall i :: 0 <= i < n ==> files[i] == more[i]
    ensures LargestOf(files, n) == LargestOf(more, n)
  {
    if n > 1 {
      LargestPrefix(files, more, n - 1);
    }
  }

  lemma {:induction false} LargestKept(files: seq<File>, n: nat, test: File -> bool) returns (k: int)
    requires n <= |files| && |Keep(files, n, test)| > 0
    ensures BestAt(files, n, test, k) && Largest(Keep(files, n, test)) == files[k]
  {
    var before, last := Keep(files, n - 1, test), files[n - 1];
    if |before| == 0 {
      NoneKept(files, n - 1, test);
      k := n - 1;
    } else {
      k := LargestKept(files, n - 1, test);
      if test(last) {
        LargestPlus(before, last);
        if SizeOf(last) > SizeOf(files[k]) {
          k := n - 1;
        }
      }
    }
  }

  lemma {:induction false} NoneKept(files: seq<File>, n: nat, test: File -> bool)
    requires n <= |files|
    ensures |Keep(files, n, test)| == 0 <==> forall i :: 0 <= i < n ==> !test(files[i])
  {
    if n > 0 {
      NoneKept(files, n - 1, test);
    }
  }

  /** The largest, the first of them, of the playable files that pass a test. */
  ghost predicate BestOf(files: seq<File>, test: File -> bool, p: Pick) {
    exists k :: BestAt(Pool(files), |Pool(files)|, test, k) && p == Picked(Pool(files)[k].index)
  }

  lemma {:induction false} LargestIsBest(files: seq<File>, test: File -> bool)
    requires |All(Pool(files), test)| > 0
    ensures BestOf(files, test, Picked(Largest(All(Pool(files), test)).index))
  {
    var k := LargestKept(Pool(files), |Pool(files)|, test);
  }

  lemma {:induction false} KeepTwice(files: seq<File>, n: nat)
    requires n <= |files|
    ensures All(Keep(files, n, Unlabelled), Bare) == Keep(files, n, Weak)
  {
    if n > 0 {
      KeepTwice(files, n - 1);
      if Unlabelled(files[n - 1]) {
        KeepPlus(Keep(files, n - 1, Unlabelled), files[n - 1], Bare);
      }
    }
  }

  lemma {:induction false} KeepPlus(files: seq<File>, f: File, test: File -> bool)
    ensures All(files + [f], test) == All(files, test) + if test(f) then [f] else []
  {
    KeepPrefix(files, files + [f], |files|, test);
  }

  lemma {:induction false} KeepPrefix(files: seq<File>, more: seq<File>, n: nat, test: File -> bool)
    requires n <= |files| && n <= |more| && forall i :: 0 <= i < n ==> files[i] == more[i]
    ensures Keep(files, n, test) == Keep(more, n, test)
  {
    if n > 0 {
      KeepPrefix(files, more, n - 1, test);
    }
  }

  lemma {:induction false} KeepOne(files: seq<File>, n: nat, test: File -> bool, k: nat)
    requires k < n <= |files| && test(files[k]) && forall i :: 0 <= i < n && i != k ==> !test(files[i])
    ensures Keep(files, n, test) == [files[k]]
  {
    if k < n - 1 {
      KeepOne(files, n - 1, test, k);
    } else {
      NoneKept(files, n - 1, test);
    }
  }

  lemma {:induction false} KeepAll(files: seq<File>, n: nat)
    requires n <= |files|
    ensures Keep(files, n, Any) == files[..n]
  {
    if n > 0 {
      KeepAll(files, n - 1);
    }
  }

  /** The one file at k of those that could be played carries the episode's bare number and declares no episode. */
  ghost predicate OnlyWeak(files: seq<File>, k: nat) {
    var pool := Pool(files);
    k < |pool| && pool[k].bare && !pool[k].labelled
    && forall i :: 0 <= i < |pool| && i != k ==> !pool[i].bare || pool[i].labelled
  }

  /** Nothing names the episode, so it is not certain which file it is. */
  ghost predicate NoneNames(files: seq<File>) {
    forall f <- Pool(files) :: !f.names
  }

  /** A bare number that stands in one file alone decides: with nothing that names the episode, every store plays that
      file, whatever position the indexer gave. */
  lemma {:induction false} OnlyBareNumberWins(files: seq<File>, at: Option<int>, k: nat)
    requires NoneNames(files) && OnlyWeak(files, k)
    ensures SelectFileId(files, Episode, at) == PickFileId(files, Episode, at) == PickIndex(files, Episode, at)
         == Picked(Pool(files)[k].index)
  {
    var pool := Pool(files);
    NoneMatched(pool);
    KeepTwice(pool, |pool|);
    KeepOne(pool, |pool|, Weak, k);
  }

  /** Nothing in the names decides: nothing names the episode, its bare number stands in no file or in several, there is
      more than one file to choose from, and they are not a pack of other episodes. */
  ghost predicate Undecided(files: seq<File>) {
    NoneNames(files) && (forall k: nat :: !OnlyWeak(files, k)) && |Pool(files)| > 1
    && (Labels(files) <= 1 || Labels(files) <= |Pool(files)| - Labels(files))
  }

  lemma {:induction false} UndecidedSays(files: seq<File>)
    requires Undecided(files)
    ensures PickEpisode(files) == NoOpinion
  {
    var pool := Pool(files);
    NoneMatched(pool);
    KeepTwice(pool, |pool|);
    if |Keep(pool, |pool|, Weak)| == 1 {
      var k := OneKept(pool, |pool|, Weak);
      assert OnlyWeak(files, k);
    }
  }

  lemma {:induction false} OneKept(files: seq<File>, n: nat, test: File -> bool) returns (k: nat)
    requires n <= |files| && |Keep(files, n, test)| == 1
    ensures k < n && test(files[k]) && forall i :: 0 <= i < n && i != k ==> !test(files[i])
  {
    if test(files[n - 1]) {
      NoneKept(files, n - 1, test);
      k := n - 1;
    } else {
      k := OneKept(files, n - 1, test);
    }
  }

  /** Then the indexer's position does, where it is one: TorBox and Real-Debrid play the file there, Premiumize the file of
      that place in its own list. TorBox passes any other position through. */
  lemma {:induction false} PositionDecides(files: seq<File>, at: int)
    requires Undecided(files)
    ensures 0 <= at < |files| ==>
              SelectFileId(files, Episode, Some(at)) == PickFileId(files, Episode, Some(at)) == Picked(files[at].index)
              && PickIndex(files, Episode, Some(at)) == Picked(at)
    ensures !(0 <= at < |files|) ==>
              SelectFileId(files, Episode, Some(at)) == Picked(at)
              && PickFileId(files, Episode, Some(at)) == PickFileId(files, Episode, None)
              && PickIndex(files, Episode, Some(at)) == PickIndex(files, Episode, None)
  {
    UndecidedSays(files);
  }

  /** And without one every store plays the first of the largest: of the files with the bare number, if there are any; else
      of those that declare no episode; else of all that could be played. */
  lemma {:induction false} GuessIsLargest(files: seq<File>)
    requires Undecided(files)
    ensures var p := SelectFileId(files, Episode, None);
            p == PickFileId(files, Episode, None) == PickIndex(files, Episode, None)
            && BestOf(files, if exists f :: f in Pool(files) && f.bare && !f.labelled then Weak
                             else if exists f :: f in Pool(files) && !f.labelled then Unlabelled
                             else Any, p)
  {
    var pool := Pool(files);
    UndecidedSays(files);
    KeepTwice(pool, |pool|);
    AllHolds(pool, Weak);
    AllHolds(pool, Unlabelled);
    KeepAll(pool, |pool|);
    PoolHolds(files);
    assert All(pool, Any) == pool;
    if |All(pool, Weak)| > 0 {
      assert All(pool, Weak)[0] in All(pool, Weak);
      LargestIsBest(files, Weak);
    } else if |All(pool, Unlabelled)| > 0 {
      assert All(pool, Unlabelled)[0] in All(pool, Unlabelled);
      LargestIsBest(files, Unlabelled);
    } else {
      LargestIsBest(files, Any);
    }
  }

  /** One file that could be played and nothing said of it is played, whatever the position. */
  lemma {:induction false} OnlyFilePlays(files: seq<File>, at: Option<int>, f: File)
    requires Pool(files) == [f]
    ensures SelectFileId(files, Episode, at) == PickFileId(files, Episode, at) == PickIndex(files, Episode, at)
         == Picked(f.index)
  {
    KeptOfOne(f, Names);
    KeptOfOne(f, Unlabelled);
    KeptOfOne(f, Bare);
    assert All([], Bare) == [];
  }

  lemma {:induction false} KeptOfOne(f: File, test: File -> bool)
    ensures All([f], test) == if test(f) then [f] else []
  {
    assert Keep([f], 0, test) == [];
  }

  /** No file that could be played says it holds anything. */
  ghost predicate NoneSized(files: seq<File>) {
    forall g <- Pool(files) :: SizeOf(g) <= 0
  }

  lemma {:induction false} KeepFull(files: seq<File>, n: nat, test: File -> bool)
    requires n <= |files|
    ensures |Keep(files, n, test)| <= n
    ensures |Keep(files, n, test)| == n ==> forall i :: 0 <= i < n ==> test(files[i])
  {
    if n > 0 {
      KeepFull(files, n - 1, test);
    }
  }

  /** A film: TorBox trusts a position in range if the file there is a video, where there are any, of at least half the
      size of the largest, or where none has a size; else it plays the largest. Without a position it has no opinion. The
      others trust any position in range, and else play the largest. */
  lemma {:induction false} FilmPlays(files: seq<File>, at: Option<int>)
    ensures at.None? ==> SelectFileId(files, Movie, at) == NoOpinion
    ensures at.Some? && !(0 <= at.value < |files|) ==> SelectFileId(files, Movie, at) == Picked(at.value)
    ensures at.Some? && 0 <= at.value < |files| ==>
              var f, p := files[at.value], SelectFileId(files, Movie, at);
              PickFileId(files, Movie, at) == Picked(f.index) && PickIndex(files, Movie, at) == Picked(at.value)
              && if (f.video || forall g <- files :: !g.video)
                    && (f.size.None? || (forall g <- Pool(files) :: SizeOf(g) <= 2 * SizeOf(f))
                        || (NoneSized(files) && exists g :: g in Pool(files) && SizeOf(g) == 0))
                 then p == Picked(f.index) else BestOf(files, Any, p)
    ensures |files| > 0 && !(at.Some? && 0 <= at.value < |files|) ==>
              PickFileId(files, Movie, at) == PickIndex(files, Movie, at) && BestOf(files, Any, PickIndex(files, Movie, at))
  {
    if |files| > 0 {
      var pool := Pool(files);
      PoolHolds(files);
      KeepAll(pool, |pool|);
      assert All(pool, Any) == pool;
      LargestIsBest(files, Any);
      LargestIs(pool);
      KeepFull(files, |files|, IsVideo);
      if InRange(at, files) {
        FeatureIs(files, files[at.value]);
      }
    }
  }

  lemma {:induction false} FeatureIs(files: seq<File>, f: File)
    requires f in files
    ensures FeatureSized(files, f)
            <==> (f.video || forall g <- files :: !g.video)
                 && (f.size.None? || (forall g <- Pool(files) :: SizeOf(g) <= 2 * SizeOf(f))
                     || (NoneSized(files) && exists g :: g in Pool(files) && SizeOf(g) == 0))
  {
    var pool := Pool(files);
    PoolHolds(files);
    LargestIs(pool);
    KeepFull(files, |files|, IsVideo);
    AllHolds(files, IsVideo);
    if exists g :: g in files && g.video {
      var g :| g in files && g.video;
      assert IsVideo(g) && g in All(files, IsVideo);
    }
  }

  // ---- the loops ----

  method Filter(files: seq<File>, test: File -> bool) returns (out: seq<File>)
    ensures out == All(files, test)
  {
    out := [];
    for i := 0 to |files|
      invariant out == Keep(files, i, test)
    {
      if test(files[i]) {
        out := out + [files[i]];
      }
    }
  }

  method FindLargest(files: seq<File>) returns (best: File)
    requires |files| > 0
    ensures best == Largest(files)
  {
    best := files[0];
    for i := 1 to |files|
      invariant best == LargestOf(files, i)
    {
      if SizeOf(files[i]) > SizeOf(best) {
        best := files[i];
      }
    }
  }

  /** pickEpisodeFile, whose one loop sorts the pool into what names the episode and what declares none. */
  method PickEpisodeFile(files: seq<File>) returns (p: Pick)
    ensures p == PickEpisode(files)
  {
    var pool := Filter(files, IsVideo);
    if |pool| == 0 {
      pool := files;
    }
    if |pool| == 0 {
      return NoOpinion;
    }
    var matched, unlabelled: seq<File> := [], [];
    for i := 0 to |pool|
      invariant matched == Keep(pool, i, Names) && unlabelled == Keep(pool, i, Unlabelled)
    {
      if Names(pool[i]) {
        matched := matched + [pool[i]];
      }
      if Unlabelled(pool[i]) {
        unlabelled := unlabelled + [pool[i]];
      }
    }
    if |matched| > 0 {
      var best := FindLargest(matched);
      return Picked(best.index);
    }
    var bare := Filter(unlabelled, Bare);
    if |bare| == 1 {
      return Picked(bare[0].index);
    }
    var labelled := |pool| - |unlabelled|;
    if labelled > 1 && labelled > |unlabelled| {
      return Refused;
    }
    if |pool| > 1 {
      return NoOpinion;
    }
    var best := FindLargest(pool);
    p := Picked(best.index);
  }

  // ---- labels of several episodes ----

  /** One later number of a label: written with an `e` of its own or bare, in how many digits, and its value. */
  datatype Later = Later(marked: bool, digits: nat, value: int)

  /** A label as the pattern finds it: the season, the first number with its digits, and the numbers after it. */
  datatype Label = Label(season: int, digits: nat, first: int, chain: seq<Later>)

  predicate WellWritten(l: Label) {
    forall i :: 0 <= i < |l.chain| ==> l.chain[i].marked || l.chain[i].digits == l.digits
  }

  /** Two numbers are a range, a season long at most unless marked; three or more are a list. */
  predicate Covers(l: Label, season: int, episode: int) {
    l.season == season && |l.chain| > 0 && WellWritten(l)
    && if |l.chain| == 1 then
         l.first < l.chain[0].value && l.first <= episode <= l.chain[0].value
         && (l.chain[0].marked || l.chain[0].value - l.first <= 12)
       else
         episode == l.first || exists i :: 0 <= i < |l.chain| && l.chain[i].value == episode
  }

  method RangeHoldsEpisode(labels: seq<Label>, season: int, episode: int) returns (holds: bool)
    ensures holds <==> exists k :: 0 <= k < |labels| && Covers(labels[k], season, episode)
  {
    for k := 0 to |labels|
      invariant forall j :: 0 <= j < k ==> !Covers(labels[j], season, episode)
    {
      var one := LabelHolds(labels[k], season, episode);
      if one {
        return true;
      }
    }
    holds := false;
  }

  /** One round of the loop over the labels found. */
  method LabelHolds(l: Label, season: int, episode: int) returns (holds: bool)
    ensures holds == Covers(l, season, episode)
  {
    if l.season != season || |l.chain| == 0 {
      return false;
    }
    for i := 0 to |l.chain|
      invariant forall j :: 0 <= j < i ==> l.chain[j].marked || l.chain[j].digits == l.digits
    {
      if !l.chain[i].marked && l.chain[i].digits != l.digits {
        return false;
      }
    }
    if |l.chain| == 1 {
      var hi := l.chain[0].value;
      if hi <= l.first || episode < l.first || episode > hi {
        return false;
      }
      if !l.chain[0].marked && hi - l.first > 12 {
        return false;
      }
      return true;
    }
    if episode == l.first {
      return true;
    }
    for i := 0 to |l.chain|
      invariant forall j :: 0 <= j < i ==> l.chain[j].value != episode
    {
      if l.chain[i].value == episode {
        return true;
      }
    }
    holds := false;
  }

  /** No label speaks for an episode far from what it writes: two episodes of one bare range are at most twelve apart, and
      a list holds only numbers it writes. */
  lemma {:induction false} LabelsStayClose(l: Label, season: int, x: int, y: int)
    requires Covers(l, season, x) && Covers(l, season, y)
    ensures |l.chain| == 1 && !l.chain[0].marked ==> -12 <= x - y <= 12
    ensures |l.chain| > 1 ==> x == l.first || exists i :: 0 <= i < |l.chain| && l.chain[i].value == x
    ensures WellWritten(l) && l.season == season
  {
  }
}
