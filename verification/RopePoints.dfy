/** Every position of a row, point by point, from the inputs alone: where each text, marker and segment starts and
    what each of its tokens gets. */
module RopePoints {
  import opened Sequences
  import opened AudioLengths
  import opened MediaRow
  import opened RopeIndex
  import opened RopeOrder

  // ---- The order of an audio-in-video segment ----

  /** How many of the audio tokens `a..n`, one position each, come before time `t`. */
  function Sooner(a: nat, n: nat, t: real): nat
    requires a <= n
    decreases n - a
  {
    if a == n then 0 else (if a as real < t then 1 else 0) + Sooner(a + 1, n, t)
  }

  /** How many of the times from index `v` on have come by time `t`. */
  function UpTo(times: seq<real>, v: nat, t: real): nat
    requires v <= |times|
    decreases |times| - v
  {
    if v == |times| then 0 else (if times[v] <= t then 1 else 0) + UpTo(times, v + 1, t)
  }

  /** How many frames have come by time `t`. */
  function FramesBy(frames: nat, rate: real, t: real): nat {
    if frames == 0 then 0 else FramesBy(frames - 1, rate, t) + if (frames - 1) as real * rate <= t then 1 else 0
  }

  lemma {:induction false} NoneSooner(a: nat, n: nat, t: real)
    requires a <= n && t <= a as real
    ensures Sooner(a, n, t) == 0
    decreases n - a
  {
    if a < n { NoneSooner(a + 1, n, t); }
  }

  lemma {:induction false} NoneUpTo(times: seq<real>, v: nat, t: real)
    requires v <= |times| && Sorted(times) && (v < |times| ==> t < times[v])
    ensures UpTo(times, v, t) == 0
    decreases |times| - v
  {
    if v < |times| { NoneUpTo(times, v + 1, t); }
  }

  ghost predicate Timed(video: seq<Pos>, times: seq<real>, start: real) {
    |video| == |times| && Sorted(times) && forall k | 0 <= k < |times| :: video[k].t == times[k] + start
  }

  lemma MergeStep(video: Block, audio: Block, v: nat, a: nat)
    requires v <= |video| && a <= |audio|
    ensures var s := Positions(MergeBlocks(video, audio, v, a));
      s == if v < |video| && a < |audio| then
             if video[v].t <= audio[a].t then [video[v]] + Positions(MergeBlocks(video, audio, v + 1, a))
             else [audio[a]] + Positions(MergeBlocks(video, audio, v, a + 1))
           else video[v..] + audio[a..]
  {
    hide Positions;
    if v < |video| && a < |audio| {
      if video[v].t <= audio[a].t {
        PositionsConcat([video[v..v + 1]], MergeBlocks(video, audio, v + 1, a));
        OnePosition(video[v..v + 1]);
      } else {
        PositionsConcat([audio[a..a + 1]], MergeBlocks(video, audio, v, a + 1));
        OnePosition(audio[a..a + 1]);
      }
    } else if v < |video| {
      OnePosition(video[v..]);
      assert MergeBlocks(video, audio, v, a) == [video[v..]] && audio[a..] == [];
    } else if a < |audio| {
      OnePosition(audio[a..]);
      assert MergeBlocks(video, audio, v, a) == [audio[a..]] && video[v..] == [];
    } else {
      NoPositions();
      assert MergeBlocks(video, audio, v, a) == [] && video[v..] == audio[a..] == [];
    }
  }

  lemma NoPositions()
    ensures Positions([]) == []
  {
  }

  /** A video position comes after the earlier ones and after exactly the audio that is sooner. */
  lemma {:induction false} MergeVideoAt(video: Block, n: nat, start: real, times: seq<real>, v: nat, a: nat, i: nat)
    requires n >= 1 && Timed(video, times, start) && v <= i < |video| && a <= n
    ensures var s := Positions(MergeBlocks(video, Line(n, start), v, a)); var at := i - v + Sooner(a, n, times[i]);
      at < |s| && s[at] == video[i]
    decreases |video| - v + n - a
  {
    hide MergeBlocks, Positions;
    var audio: Block := Line(n, start);
    MergeStep(video, audio, v, a);
    if a < n {
      if video[v].t <= audio[a].t {
        NoneSooner(a, n, times[v]);
        if i > v { MergeVideoAt(video, n, start, times, v + 1, a, i); }
      } else {
        assert times[v] <= times[i];
        MergeVideoAt(video, n, start, times, v, a + 1, i);
      }
    }
  }

  /** An audio position comes after the earlier ones and after exactly the video that has come by its time. */
  lemma {:induction false} MergeAudioAt(video: Block, n: nat, start: real, times: seq<real>, v: nat, a: nat, j: nat)
    requires n >= 1 && Timed(video, times, start) && v <= |video| && a <= j < n
    ensures var s := Positions(MergeBlocks(video, Line(n, start), v, a));
      var at := j - a + UpTo(times, v, j as real);
      at < |s| && s[at] == Diagonal(start + j as real)
    decreases |video| - v + n - a
  {
    hide MergeBlocks, Positions;
    var audio: Block := Line(n, start);
    MergeStep(video, audio, v, a);
    if v < |video| {
      if video[v].t <= audio[a].t {
        MergeAudioAt(video, n, start, times, v + 1, a, j);
      } else {
        NoneUpTo(times, v, a as real);
        if j > a { MergeAudioAt(video, n, start, times, v, a + 1, j); }
      }
    }
  }

  // ---- The times of a grid ----

  /** One time per video token: frame by frame, the frame's index scaled by the rate. */
  function VideoTimes(frames: nat, patches: nat, rate: real): (r: seq<real>)
    ensures |r| == frames * patches
  {
    if frames == 0 then []
    else
      assert frames * patches == (frames - 1) * patches + patches;
      VideoTimes(frames - 1, patches, rate) + Copies((frames - 1) as real * rate, patches)
  }

  lemma {:induction false} FrameTime(t: real, h: nat, w: nat, start: real, i: nat)
    requires i < |Frame(t, h, w, start)|
    ensures Frame(t, h, w, start)[i].t == t + start
  {
    var f := Frame(t, h - 1, w, start);
    if i < |f| { FrameTime(t, h - 1, w, start, i); }
  }

  lemma VisionStep(n: nat, rate: real, h: nat, w: nat, start: real)
    requires n > 0
    ensures VisionBlock(Times(n, rate), h, w, start)
         == VisionBlock(Times(n - 1, rate), h, w, start) + Frame(Times(n, rate)[n - 1], h, w, start)
  {
    hide Frame;
    assert Times(n, rate)[..n - 1] == Times(n - 1, rate);
  }

  /** Every position of a grid is its token's time, moved by the segment's start. */
  lemma {:induction false} VisionTimes(n: nat, rate: real, h: nat, w: nat, start: real, patches: nat, i: nat)
    requires patches == h * w && i < |VisionBlock(Times(n, rate), h, w, start)|
    ensures i < |VideoTimes(n, patches, rate)|
    ensures VisionBlock(Times(n, rate), h, w, start)[i].t == VideoTimes(n, patches, rate)[i] + start
  {
    hide Frame, VisionBlock, Times;
    assert |Times(n, rate)| == n;
    if n > 0 {
      VisionStep(n, rate, h, w, start);
      var before := VisionBlock(Times(n - 1, rate), h, w, start);
      assert |before| == (n - 1) * patches == |VideoTimes(n - 1, patches, rate)|;
      if i < |before| {
        VisionTimes(n - 1, rate, h, w, start, patches, i);
      } else {
        FrameTime(Times(n, rate)[n - 1], h, w, start, i - |before|);
      }
    }
  }

  lemma {:induction false} VideoTimesSorted(frames: nat, patches: nat, rate: real)
    requires rate >= 0.0
    ensures Sorted(VideoTimes(frames, patches, rate))
    ensures forall i | 0 <= i < |VideoTimes(frames, patches, rate)| ::
      VideoTimes(frames, patches, rate)[i] <= (frames as real - 1.0) * rate
  {
    hide VideoTimes;
    TimesStep(frames, patches, rate, 0.0);
    if frames > 0 {
      VideoTimesSorted(frames - 1, patches, rate);
      NextTime(frames, rate);
      SortedAppend(VideoTimes(frames - 1, patches, rate), ((frames - 1) as real - 1.0) * rate,
        (frames - 1) as real * rate, patches);
    }
  }

  lemma NextTime(frames: nat, rate: real)
    requires rate >= 0.0 && frames > 0
    ensures ((frames - 1) as real - 1.0) * rate <= (frames - 1) as real * rate == (frames as real - 1.0) * rate
  {
    Scale((frames - 1) as real - 1.0, (frames - 1) as real, rate);
    assert (frames - 1) as real == frames as real - 1.0;
  }

  lemma SortedAppend(a: seq<real>, bound: real, x: real, n: nat)
    requires Sorted(a) && bound <= x && forall i | 0 <= i < |a| :: a[i] <= bound
    ensures Sorted(a + Copies(x, n)) && forall i | 0 <= i < |a + Copies(x, n)| :: (a + Copies(x, n))[i] <= x
  {
  }

  lemma {:induction false} UpToConcat(a: seq<real>, b: seq<real>, v: nat, t: real)
    requires v <= |a|
    ensures UpTo(a + b, v, t) == UpTo(a, v, t) + UpTo(b, 0, t)
    decreases |a| - v
  {
    if v < |a| { UpToConcat(a, b, v + 1, t); } else { UpToShift(a, b, 0, t); }
  }

  lemma {:induction false} UpToShift(a: seq<real>, b: seq<real>, w: nat, t: real)
    requires w <= |b|
    ensures UpTo(a + b, |a| + w, t) == UpTo(b, w, t)
    decreases |b| - w
  {
    if w < |b| { UpToShift(a, b, w + 1, t); }
  }

  lemma {:induction false} UpToCopies(x: real, n: nat, v: nat, t: real)
    requires v <= n
    ensures UpTo(Copies(x, n), v, t) == if x <= t then n - v else 0
    decreases n - v
  {
    if v < n { UpToCopies(x, n, v + 1, t); }
  }

  lemma {:induction false} UpToFrames(frames: nat, patches: nat, rate: real, t: real)
    ensures UpTo(VideoTimes(frames, patches, rate), 0, t) == patches * FramesBy(frames, rate, t)
  {
    hide UpTo, FramesBy, VideoTimes;
    TimesStep(frames, patches, rate, t);
    if frames > 0 {
      var before, time := VideoTimes(frames - 1, patches, rate), (frames - 1) as real * rate;
      UpToFrames(frames - 1, patches, rate, t);
      UpToConcat(before, Copies(time, patches), 0, t);
      UpToCopies(time, patches, 0, t);
      OneMore(patches, FramesBy(frames - 1, rate, t));
    }
  }

  lemma TimesStep(frames: nat, patches: nat, rate: real, t: real)
    ensures frames == 0 ==> VideoTimes(frames, patches, rate) == []
    ensures frames == 0 ==> UpTo(VideoTimes(frames, patches, rate), 0, t) == 0 && FramesBy(frames, rate, t) == 0
    ensures frames > 0 ==> var time := (frames - 1) as real * rate;
      && VideoTimes(frames, patches, rate) == VideoTimes(frames - 1, patches, rate) + Copies(time, patches)
      && FramesBy(frames, rate, t) == FramesBy(frames - 1, rate, t) + if time <= t then 1 else 0
  {
  }

  lemma OneMore(a: nat, b: nat)
    ensures a * (b + 1) == a * b + a && a * 0 == 0
  {
  }

  // ---- Segments ----

  /** The patches of one frame. */
  function FrameSize(g: Grid, merge: nat): nat
    requires merge > 0
  {
    (g.h / merge) * (g.w / merge)
  }

  /** How many positions a grid takes, and where patch `x` of row `y` of frame `f` stands among them. */
  function Patches(g: Grid, merge: nat): nat
    requires merge > 0
  {
    g.t * FrameSize(g, merge)
  }

  function PatchAt(g: Grid, merge: nat, f: nat, y: nat, x: nat): nat
    requires merge > 0
  {
    f * FrameSize(g, merge) + y * (g.w / merge) + x
  }

  /** Patch `x` of row `y` of frame `f`, after `skip` positions of something else. */
  ghost predicate PatchLaid(
    s: seq<Pos>, g: Grid, merge: nat, rate: real, start: real, f: nat, y: nat, x: nat, skip: nat)
    requires merge > 0
  {
    var at := PatchAt(g, merge, f, y, x) + skip;
    at < |s| && s[at] == Pos(f as real * rate + start, y as real + start, x as real + start)
  }

  ghost predicate GridLaid(s: seq<Pos>, g: Grid, merge: nat, rate: real, start: real)
    requires merge > 0
  {
    && |s| == Patches(g, merge)
    && forall f: nat, y: nat, x: nat | f < g.t && y < g.h / merge && x < g.w / merge ::
         PatchLaid(s, g, merge, rate, start, f, y, x, 0)
  }

  ghost predicate LineLaid(s: seq<Pos>, n: nat, start: real) {
    |s| == n && forall j | 0 <= j < n :: s[j] == Pos(start + j as real, start + j as real, start + j as real)
  }

  /** Where audio token `j` stands in an audio-in-video segment: behind the frames that have come by then. */
  ghost predicate AudioLaid(s: seq<Pos>, g: Grid, merge: nat, rate: real, start: real, j: nat)
    requires merge > 0
  {
    var at, x := j + FrameSize(g, merge) * FramesBy(g.t, rate, j as real), start + j as real;
    at < |s| && s[at] == Pos(x, x, x)
  }

  /** Where a patch stands in an audio-in-video segment: behind the audio that is sooner than its frame. */
  ghost predicate PatchMixed(
    s: seq<Pos>, g: Grid, merge: nat, rate: real, n: nat, start: real, f: nat, y: nat, x: nat)
    requires merge > 0
  {
    PatchLaid(s, g, merge, rate, start, f, y, x, Sooner(0, n, f as real * rate))
  }

  ghost predicate MixLaid(s: seq<Pos>, g: Grid, merge: nat, rate: real, n: nat, start: real)
    requires merge > 0
  {
    && |s| == Patches(g, merge) + n
    && (forall f: nat, y: nat, x: nat | f < g.t && y < g.h / merge && x < g.w / merge ::
          PatchMixed(s, g, merge, rate, n, start, f, y, x))
    && forall j: nat | j < n :: AudioLaid(s, g, merge, rate, start, j)
  }

  /** The positions of a segment that starts at `start`, markers aside, from the next input of its kind. */
  ghost predicate SegmentLaid(s: seq<Pos>, m: Media, cfg: Config, c: Cursor, start: real)
    requires GoodMedia(m, cfg.inp, c)
  {
    var inp := cfg.inp;
    match m
    case Audio => LineLaid(s, FeatLen(inp.audios[c.audio]), start)
    case Image => GridLaid(s, inp.images[c.image], inp.merge, cfg.perSecond, start)
    case Video => GridLaid(s, inp.videos[c.video], inp.merge, inp.rates[c.video] * cfg.perSecond, start)
    case AudioVideo(_) =>
      MixLaid(s, inp.videos[c.video], inp.merge, inp.rates[c.video] * cfg.perSecond,
              FeatLen(inp.audios[c.audio]), start)
  }

  function Larger(a: real, b: real): real {
    if a >= b then a else b
  }

  /** How far above its start a grid reaches: its last frame, its last row or its last column. */
  function GridReach(g: Grid, merge: nat, rate: real): real
    requires merge > 0
  {
    Larger((g.t as real - 1.0) * rate, Larger((g.h / merge) as real - 1.0, (g.w / merge) as real - 1.0))
  }

  /** What the closing markers start above; of an audio-in-video segment only the input that ends later counts. */
  function Reach(m: Media, cfg: Config, c: Cursor): real
    requires GoodMedia(m, cfg.inp, c)
  {
    var inp := cfg.inp;
    match m
    case Audio => FeatLen(inp.audios[c.audio]) as real - 1.0
    case Image => GridReach(inp.images[c.image], inp.merge, cfg.perSecond)
    case Video => GridReach(inp.videos[c.video], inp.merge, inp.rates[c.video] * cfg.perSecond)
    case AudioVideo(_) =>
      var g, rate, n := inp.videos[c.video], inp.rates[c.video] * cfg.perSecond, FeatLen(inp.audios[c.audio]);
      if (g.t as real - 1.0) * rate > n as real - 1.0 then GridReach(g, inp.merge, rate) else n as real - 1.0
  }

  lemma PatchesIs(g: Grid, merge: nat)
    requires GoodGrid(g, merge)
    ensures GridLen(g, merge) == Patches(g, merge) >= 1
  {
    GridWidth(g, merge);
  }

  lemma PatchFits(g: Grid, merge: nat, f: nat, y: nat, x: nat)
    requires merge > 0 && f < g.t && y < g.h / merge && x < g.w / merge
    ensures PatchAt(g, merge, f, y, x) < Patches(g, merge)
  {
    var h, w := g.h / merge, g.w / merge;
    RowsBefore(y, h, w);
    RowsBefore(f, g.t, h * w);
  }

  lemma BlockAt(g: Grid, merge: nat, rate: real, start: real, f: nat, y: nat, x: nat)
    requires GoodGrid(g, merge) && f < g.t && y < g.h / merge && x < g.w / merge
    ensures PatchLaid(GridBlock(g, merge, rate, start), g, merge, rate, start, f, y, x, 0)
  {
    hide VisionBlock;
    VisionAt(Times(g.t, rate), g.h / merge, g.w / merge, start, f, y, x);
  }

  lemma BlockLaid(g: Grid, merge: nat, rate: real, start: real)
    requires GoodGrid(g, merge)
    ensures GridLaid(GridBlock(g, merge, rate, start), g, merge, rate, start)
  {
    hide GridBlock, PatchLaid, GridLen, Patches;
    PatchesIs(g, merge);
    forall f: nat, y: nat, x: nat | f < g.t && y < g.h / merge && x < g.w / merge
      ensures PatchLaid(GridBlock(g, merge, rate, start), g, merge, rate, start, f, y, x, 0)
    {
      BlockAt(g, merge, rate, start, f, y, x);
    }
  }

  lemma BlockTimed(g: Grid, merge: nat, rate: real, start: real)
    requires GoodGrid(g, merge) && rate >= 0.0
    ensures Timed(GridBlock(g, merge, rate, start), VideoTimes(g.t, (g.h / merge) * (g.w / merge), rate), start)
  {
    hide VisionBlock, VideoTimes;
    var h, w := g.h / merge, g.w / merge;
    var video := GridBlock(g, merge, rate, start);
    PatchesIs(g, merge);
    VideoTimesSorted(g.t, h * w, rate);
    forall i | 0 <= i < |video| ensures video[i].t == VideoTimes(g.t, h * w, rate)[i] + start {
      VisionTimes(g.t, rate, h, w, start, h * w, i);
    }
  }

  lemma MixIsLaid(g: Grid, merge: nat, rate: real, n: nat, start: real)
    requires GoodGrid(g, merge) && rate >= 0.0 && n >= 1
    ensures MixLaid(Positions(MergeBlocks(GridBlock(g, merge, rate, start), Line(n, start), 0, 0)),
      g, merge, rate, n, start)
  {
    hide MergeBlocks, Positions, GridBlock, VideoTimes, Timed, GridLen, Patches, PatchAt;
    var video := GridBlock(g, merge, rate, start);
    var s := Positions(MergeBlocks(video, Line(n, start), 0, 0));
    var times := VideoTimes(g.t, (g.h / merge) * (g.w / merge), rate);
    MergeWidth(video, Line(n, start), 0, 0);
    PatchesIs(g, merge);
    BlockTimed(g, merge, rate, start);
    forall f: nat, y: nat, x: nat | f < g.t && y < g.h / merge && x < g.w / merge
      ensures PatchMixed(s, g, merge, rate, n, start, f, y, x)
    {
      BlockAt(g, merge, rate, start, f, y, x);
      PatchFits(g, merge, f, y, x);
      var i := PatchAt(g, merge, f, y, x);
      TimedAt(video, times, start, i);
      MergeVideoAt(video, n, start, times, 0, 0, i);
    }
    forall j: nat | j < n ensures AudioLaid(s, g, merge, rate, start, j) {
      UpToFrames(g.t, (g.h / merge) * (g.w / merge), rate, j as real);
      MergeAudioAt(video, n, start, times, 0, 0, j);
    }
  }

  lemma TimedAt(video: seq<Pos>, times: seq<real>, start: real, i: nat)
    requires Timed(video, times, start) && i < |video|
    ensures i < |times| && video[i].t == times[i] + start
  {
  }

  lemma LineIsLaid(n: nat, start: real)
    ensures LineLaid(Line(n, start), n, start)
  {
  }

  lemma SegmentIsLaid(m: Media, cfg: Config, c: Cursor, start: real)
    requires GoodMedia(m, cfg.inp, c) && cfg.perSecond >= 0.0
    ensures SegmentLaid(Positions(MediaBlocks(m, cfg, c, start)), m, cfg, c, start)
  {
    hide GridBlock, Positions, MergeBlocks, GridLaid, MixLaid, LineLaid, FeatLen, GoodGrid;
    var inp := cfg.inp;
    match m
    case Audio =>
      OnePosition(Line(FeatLen(inp.audios[c.audio]), start));
      LineIsLaid(FeatLen(inp.audios[c.audio]), start);
    case Image =>
      OnePosition(GridBlock(inp.images[c.image], inp.merge, cfg.perSecond, start));
      BlockLaid(inp.images[c.image], inp.merge, cfg.perSecond, start);
    case Video =>
      OnePosition(VideoBlock(cfg, c, start));
      BlockLaid(inp.videos[c.video], inp.merge, Rate(cfg, c), start);
    case AudioVideo(_) =>
      Scale(0.0, inp.rates[c.video], cfg.perSecond);
      MixIsLaid(inp.videos[c.video], inp.merge, Rate(cfg, c), FeatLen(inp.audios[c.audio]), start);
  }

  lemma GridReaches(g: Grid, merge: nat, rate: real, start: real, k: nat)
    requires GoodGrid(g, merge) && rate >= 0.0 && k < |GridBlock(g, merge, rate, start)|
    ensures BlockMax(GridBlock(g, merge, rate, start)[k..]) == start + GridReach(g, merge, rate)
  {
    hide GridBlock, BlockMax, Spans, Rising, Corner, GridReach, LastTime, Top;
    GridSpans(g, merge, rate, start);
    CornerReaches(g, merge, rate, start);
    MaxOfSpan(GridBlock(g, merge, rate, start), start, Corner(LastTime(g, rate), g.h / merge, g.w / merge, start), k);
  }

  lemma LineReaches(n: nat, start: real, k: nat)
    requires k < n
    ensures BlockMax(Line(n, start)[k..]) == start + (n as real - 1.0)
  {
    hide BlockMax, Spans, Rising;
    LineSpans(n, start);
    MaxOfSpan(Line(n, start), start, Diagonal(start + n as real - 1.0), k);
  }

  lemma MergeReaches(video: Block, audio: Block, start: real, v: Pos, a: Pos)
    requires Rising(video) && Spans(video, start, v) && video[|video| - 1] == v
    requires Rising(audio) && Spans(audio, start, a) && audio[|audio| - 1] == a
    ensures var blocks := MergeBlocks(video, audio, 0, 0);
      blocks != [] && NextStart(blocks) == 1.0 + if v.t > a.t then Top(v) else Top(a)
  {
    hide BlockMax, Spans, Rising, MergeBlocks, EndsIn, NextStart, Top;
    var k := MergeTail(video, audio, 0, 0);
    if v.t > a.t {
      EndStart(MergeBlocks(video, audio, 0, 0), video, k);
      MaxOfSpan(video, start, v, k);
    } else {
      EndStart(MergeBlocks(video, audio, 0, 0), audio, k);
      MaxOfSpan(audio, start, a, k);
    }
  }

  lemma CornerReaches(g: Grid, merge: nat, rate: real, start: real)
    requires merge > 0
    ensures var p := Corner(LastTime(g, rate), g.h / merge, g.w / merge, start);
      p.t == (g.t as real - 1.0) * rate + start && Top(p) == start + GridReach(g, merge, rate)
  {
  }

  lemma MixReaches(g: Grid, merge: nat, rate: real, n: nat, start: real)
    requires GoodGrid(g, merge) && rate >= 0.0 && n >= 1
    ensures var blocks := MergeBlocks(GridBlock(g, merge, rate, start), Line(n, start), 0, 0);
      && blocks != []
      && NextStart(blocks) == start + 1.0 +
           if (g.t as real - 1.0) * rate > n as real - 1.0 then GridReach(g, merge, rate) else n as real - 1.0
  {
    hide GridBlock, Spans, Rising, MergeBlocks, Corner, NextStart, GridReach, LastTime, Line;
    GridSpans(g, merge, rate, start);
    LineSpans(n, start);
    CornerReaches(g, merge, rate, start);
    MergeReaches(GridBlock(g, merge, rate, start), Line(n, start), start,
      Corner(LastTime(g, rate), g.h / merge, g.w / merge, start), Diagonal(start + n as real - 1.0));
  }

  lemma EndStart(blocks: seq<Block>, b: Block, k: nat)
    requires EndsIn(blocks, b, k)
    ensures blocks != [] && k < |b| && NextStart(blocks) == BlockMax(b[k..]) + 1.0
  {
  }

  lemma SegmentReaches(m: Media, cfg: Config, c: Cursor, start: real)
    requires GoodMedia(m, cfg.inp, c) && cfg.perSecond >= 0.0
    ensures MediaBlocks(m, cfg, c, start) != []
    ensures NextStart(MediaBlocks(m, cfg, c, start)) == start + Reach(m, cfg, c) + 1.0
  {
    hide GridBlock, MergeBlocks, FeatLen, GoodGrid, BlockMax, GridReach;
    var inp := cfg.inp;
    match m
    case Audio => LineReaches(FeatLen(inp.audios[c.audio]), start, 0);
    case Image => GridReaches(inp.images[c.image], inp.merge, cfg.perSecond, start, 0);
    case Video =>
      Scale(0.0, inp.rates[c.video], cfg.perSecond);
      GridReaches(inp.videos[c.video], inp.merge, Rate(cfg, c), start, 0);
    case AudioVideo(_) =>
      Scale(0.0, inp.rates[c.video], cfg.perSecond);
      MixReaches(inp.videos[c.video], inp.merge, Rate(cfg, c), FeatLen(inp.audios[c.audio]), start);
  }

  // ---- Rows ----

  /** The tokens of a segment without its markers, and how many markers stand on either side. */
  function Width(m: Media, cfg: Config, c: Cursor): nat
    requires GoodMedia(m, cfg.inp, c)
  {
    var inp := cfg.inp;
    match m
    case Audio => FeatLen(inp.audios[c.audio])
    case Image => Patches(inp.images[c.image], inp.merge)
    case Video => Patches(inp.videos[c.video], inp.merge)
    case AudioVideo(_) => Patches(inp.videos[c.video], inp.merge) + FeatLen(inp.audios[c.audio])
  }

  function Markers(m: Media): nat {
    match m case AudioVideo(_) => 2 case _ => 1
  }

  /** The positions of a row from `base` on: text and opening markers count up, the segment follows, the closing
      markers go on above it, and so does the next item. */
  ghost predicate Laid(s: seq<Pos>, base: real, items: seq<Item>, tail: nat, cfg: Config, c: Cursor)
    requires GoodItems(items, cfg.inp, c)
    decreases |items|
  {
    if items == [] then LineLaid(s, tail, base)
    else
      var m := items[0].media;
      var edge, width := Markers(m), Width(m, cfg, c);
      var lead := |items[0].text| + edge;
      var start := base + lead as real;
      var above := start + Reach(m, cfg, c) + 1.0;
      && lead + width + edge <= |s|
      && LineLaid(s[..lead], lead, base)
      && SegmentLaid(s[lead..lead + width], m, cfg, c, start)
      && LineLaid(s[lead + width..lead + width + edge], edge, above)
      && Laid(s[lead + width + edge..], above + edge as real, items[1..], tail, cfg, Next(m, c))
  }

  lemma SegmentWidth(s: seq<Pos>, m: Media, cfg: Config, c: Cursor, start: real)
    requires GoodMedia(m, cfg.inp, c) && SegmentLaid(s, m, cfg, c, start)
    ensures |s| == Width(m, cfg, c)
  {
    hide FeatLen, GoodGrid, Patches;
  }

  lemma LinesJoin(n: nat, k: nat, start: real)
    ensures LineLaid(Line(n, start) + Line(k, start + n as real), n + k, start)
  {
  }

  lemma TextPositionsOf(n: nat, blocks: seq<Block>)
    ensures Positions(WithText(n, blocks)) == Positions(blocks) + Line(n, NextStart(blocks))
  {
    hide Positions, NextStart;
    if n > 0 {
      SnocWidth(blocks, Line(n, NextStart(blocks)));
    } else {
      assert Line(0, NextStart(blocks)) == [];
    }
  }

  lemma NextAfter(blocks: seq<Block>, more: seq<Block>)
    requires more != []
    ensures NextStart(blocks + more) == NextStart(more)
  {
  }

  lemma NextAfterLine(blocks: seq<Block>, n: nat, start: real)
    requires n >= 1
    ensures NextStart(blocks + [Line(n, start)]) == start + n as real
  {
    hide BlockMax;
    LineReaches(n, start, 0);
    assert Line(n, start)[0..] == Line(n, start);
  }

  /** One item adds its text and opening markers, its segment and its closing markers. */
  lemma ItemAdds(it: Item, cfg: Config, c: Cursor, blocks: seq<Block>) returns (segment: seq<Pos>)
    requires GoodMedia(it.media, cfg.inp, c) && cfg.perSecond >= 0.0
    ensures var edge, base := Markers(it.media), NextStart(blocks);
      var lead := |it.text| + edge;
      var start := base + lead as real;
      var above := start + Reach(it.media, cfg, c) + 1.0;
      && SegmentLaid(segment, it.media, cfg, c, start)
      && Positions(AddItem(it, cfg, c, blocks))
         == Positions(blocks) + (Line(|it.text|, base) + Line(edge, base + |it.text| as real)
            + segment + Line(edge, above))
      && NextStart(AddItem(it, cfg, c, blocks)) == above + edge as real
  {
    hide GoodMedia, MediaBlocks, NextStart, Positions, SegmentLaid, Reach;
    var edge, base := Edge(it.media), NextStart(blocks);
    var text, open := Line(|it.text|, base), base + |it.text| as real;
    var start := open + edge as real;
    var media := MediaBlocks(it.media, cfg, c, start);
    segment := Positions(media);
    SegmentIsLaid(it.media, cfg, c, start);
    SegmentReaches(it.media, cfg, c, start);
    TextPositionsOf(|it.text|, blocks);
    var headed := WithText(|it.text|, blocks) + [Line(edge, open)];
    SnocWidth(WithText(|it.text|, blocks), Line(edge, open));
    PositionsConcat(headed, media);
    NextAfter(headed, media);
    SnocWidth(headed + media, Line(edge, NextStart(media)));
    NextAfterLine(headed + media, edge, NextStart(media));
    Gather(Positions(blocks), text, Line(edge, open), segment, Line(edge, NextStart(media)));
  }

  lemma Gather<T>(p: seq<T>, a: seq<T>, b: seq<T>, x: seq<T>, y: seq<T>)
    ensures p + a + b + x + y == p + (a + b + x + y)
  {
  }

  lemma Cut<T>(a: seq<T>, x: seq<T>, y: seq<T>, z: seq<T>)
    ensures var s := a + x + y + z;
      && s[..|a|] == a && s[|a|..|a| + |x|] == x && s[|a| + |x|..|a| + |x| + |y|] == y && s[|a| + |x| + |y|..] == z
  {
  }

  /** The whole row: what the blocks say is what the inputs say, point by point. */
  lemma {:induction false} WalkIsLaid(items: seq<Item>, tail: nat, cfg: Config, c: Cursor, blocks: seq<Block>)
    returns (s: seq<Pos>)
    requires GoodItems(items, cfg.inp, c) && cfg.perSecond >= 0.0
    ensures Positions(Walk(items, tail, cfg, c, blocks)) == Positions(blocks) + s
    ensures Laid(s, NextStart(blocks), items, tail, cfg, c)
  {
    hide GoodMedia, NextStart, Positions, SegmentLaid, Reach, AddItem, LineLaid, Width;
    if items == [] {
      TextPositionsOf(tail, blocks);
      s := Line(tail, NextStart(blocks));
      LineIsLaid(tail, NextStart(blocks));
    } else {
      var it, base := items[0], NextStart(blocks);
      var edge := Markers(it.media);
      var lead := |it.text| + edge;
      var start := base + lead as real;
      var above := start + Reach(it.media, cfg, c) + 1.0;
      var segment := ItemAdds(it, cfg, c, blocks);
      var rest := WalkIsLaid(items[1..], tail, cfg, Next(it.media, c), AddItem(it, cfg, c, blocks));
      var head, close := Line(|it.text|, base) + Line(edge, base + |it.text| as real), Line(edge, above);
      s := head + segment + close + rest;
      LinesJoin(|it.text|, edge, base);
      LineIsLaid(edge, above);
      SegmentWidth(segment, it.media, cfg, c, start);
      Cut(head, segment, close, rest);
      assert Positions(blocks) + (head + segment + close) + rest == Positions(blocks) + s;
    }
  }

  lemma RowIsLaid(items: seq<Item>, tail: nat, cfg: Config, c: Cursor)
    requires GoodItems(items, cfg.inp, c) && cfg.perSecond >= 0.0
    ensures Laid(Positions(Walk(items, tail, cfg, c, [])), 0.0, items, tail, cfg, c)
  {
    hide Walk, Laid, GoodItems;
    var s := WalkIsLaid(items, tail, cfg, c, []);
    assert [] + s == s;
  }
}
