/** Order of the positions of a row: time never runs backwards, and when segments start above all before them. */
module RopeOrder {
  import opened MediaRow
  import opened RopeIndex

  function Bottom(p: Pos): real {
    if p.t <= p.h && p.t <= p.w then p.t else if p.h <= p.w then p.h else p.w
  }

  predicate Rising(s: seq<Pos>) {
    forall i, j | 0 <= i < j < |s| :: s[i].t <= s[j].t
  }

  lemma RisingConcat(a: seq<Pos>, b: seq<Pos>, x: real)
    requires Rising(a) && Rising(b)
    requires (forall i | 0 <= i < |a| :: a[i].t <= x) && (forall i | 0 <= i < |b| :: x <= b[i].t)
    ensures Rising(a + b)
  {
  }

  // ---- Vision blocks ----

  predicate Sorted(times: seq<real>) {
    forall i, j | 0 <= i < j < |times| :: times[i] <= times[j]
  }

  /** Every coordinate lies between the segment's start and the last position's. */
  predicate Spans(s: seq<Pos>, start: real, last: Pos) {
    forall i | 0 <= i < |s| ::
      start <= s[i].t <= last.t && start <= s[i].h <= last.h && start <= s[i].w <= last.w
  }

  function Corner(t: real, h: nat, w: nat, start: real): Pos {
    Pos(t + start, h as real - 1.0 + start, w as real - 1.0 + start)
  }

  lemma {:induction false} FrameSpans(t: real, h: nat, k: nat, w: nat, start: real)
    requires t >= 0.0 && w >= 1 && k <= h
    ensures var f := Frame(t, k, w, start);
      && Spans(f, start, Corner(t, h, w, start)) && (forall i | 0 <= i < |f| :: f[i].t == t + start)
      && (k >= 1 ==> |f| >= 1 && f[|f| - 1] == Corner(t, k, w, start))
  {
    if k > 0 { FrameSpans(t, h, k - 1, w, start); }
  }

  /** Frames follow one another in time, and the last position is the largest on every axis. */
  lemma {:induction false} VisionSpans(times: seq<real>, h: nat, w: nat, start: real)
    requires Sorted(times) && times != [] && times[0] >= 0.0 && h >= 1 && w >= 1
    ensures var b := VisionBlock(times, h, w, start); var last := Corner(times[|times| - 1], h, w, start);
      && |b| >= 1 && Rising(b) && Spans(b, start, last) && b[|b| - 1] == last
  {
    var k := |times| - 1;
    FrameSpans(times[k], h, h, w, start);
    if k > 0 {
      hide Frame;
      VisionSpans(times[..k], h, w, start);
      RisingConcat(VisionBlock(times[..k], h, w, start), Frame(times[k], h, w, start), times[k] + start);
    } else {
      assert times[..k] == [];
    }
  }

  function LastTime(g: Grid, rate: real): real {
    (g.t as real - 1.0) * rate
  }

  lemma TimesSorted(n: nat, rate: real)
    requires rate >= 0.0
    ensures Sorted(Times(n, rate))
  {
    var times := Times(n, rate);
    forall i, j | 0 <= i < j < n ensures times[i] <= times[j] {
      Scale(i as real, j as real, rate);
      assert times[i] == i as real * rate && times[j] == j as real * rate;
    }
  }

  lemma Scale(x: real, y: real, rate: real)
    requires x <= y && rate >= 0.0
    ensures x * rate <= y * rate
  {
    assert y * rate - x * rate == (y - x) * rate;
  }

  lemma GridSpans(g: Grid, merge: nat, rate: real, start: real)
    requires GoodGrid(g, merge) && rate >= 0.0
    ensures var b := GridBlock(g, merge, rate, start);
      var last := Corner(LastTime(g, rate), g.h / merge, g.w / merge, start);
      && Rising(b) && Spans(b, start, last) && b[|b| - 1] == last
  {
    hide VisionBlock, Sorted, Rising, Spans;
    TimesSorted(g.t, rate);
    GridWidth(g, merge);
    assert Times(g.t, rate)[g.t - 1] == LastTime(g, rate);
    VisionSpans(Times(g.t, rate), g.h / merge, g.w / merge, start);
  }

  lemma LineSpans(n: nat, start: real)
    requires n >= 1
    ensures var b := Line(n, start); var last := Diagonal(start + n as real - 1.0);
      && Rising(b) && Spans(b, start, last) && b[|b| - 1] == last
  {
  }

  // ---- The merge ----

  predicate RisesFrom(s: seq<Pos>, low: real) {
    Rising(s) && forall i | 0 <= i < |s| :: low <= s[i].t
  }

  /** Merging two rising blocks gives a rising list that starts no lower than both. */
  lemma {:induction false} MergeRises(video: Block, audio: Block, v: nat, a: nat, low: real)
    requires v <= |video| && a <= |audio| && Rising(video) && Rising(audio)
    requires (v < |video| ==> low <= video[v].t) && (a < |audio| ==> low <= audio[a].t)
    ensures RisesFrom(Positions(MergeBlocks(video, audio, v, a)), low)
    decreases |video| - v + |audio| - a
  {
    hide Positions, RisesFrom;
    if v < |video| && a < |audio| {
      if video[v].t <= audio[a].t {
        MergeRises(video, audio, v + 1, a, video[v].t);
        ConsRises(video[v..v + 1], MergeBlocks(video, audio, v + 1, a), low);
      } else {
        MergeRises(video, audio, v, a + 1, audio[a].t);
        ConsRises(audio[a..a + 1], MergeBlocks(video, audio, v, a + 1), low);
      }
    } else if v < |video| {
      assert MergeBlocks(video, audio, v, a) == [video[v..]];
      TailRises(video, v, low);
    } else if a < |audio| {
      assert MergeBlocks(video, audio, v, a) == [audio[a..]];
      TailRises(audio, a, low);
    } else {
      assert MergeBlocks(video, audio, v, a) == [];
      NothingRises(low);
    }
  }

  lemma TailRises(b: Block, k: nat, low: real)
    requires Rising(b) && k < |b| && low <= b[k].t
    ensures RisesFrom(Positions([b[k..]]), low)
  {
    OnePosition(b[k..]);
  }

  lemma NothingRises(low: real)
    ensures RisesFrom(Positions([]), low)
  {
    assert Positions([]) == [];
  }

  lemma ConsRises(b: Block, rest: seq<Block>, low: real)
    requires |b| == 1 && low <= b[0].t && RisesFrom(Positions(rest), b[0].t)
    ensures RisesFrom(Positions([b] + rest), low)
  {
    hide Positions;
    PositionsConcat([b], rest);
    OnePosition(b);
    RisingConcat(b, Positions(rest), b[0].t);
  }

  ghost predicate EndsIn(blocks: seq<Block>, b: Block, k: nat) {
    blocks != [] && k < |b| && blocks[|blocks| - 1] == b[k..]
  }

  lemma EndsLater(x: Block, blocks: seq<Block>, b: Block, k: nat)
    requires EndsIn(blocks, b, k)
    ensures EndsIn([x] + blocks, b, k)
  {
  }

  lemma LastIsLatest(b: Block, i: nat)
    requires Rising(b) && i < |b|
    ensures b[i].t <= b[|b| - 1].t
  {
  }

  /** The last block of the merge is the tail of the input whose last position is later. */
  lemma {:induction false} MergeTail(video: Block, audio: Block, v: nat, a: nat) returns (k: nat)
    requires v < |video| && a < |audio| && Rising(video) && Rising(audio)
    ensures EndsIn(MergeBlocks(video, audio, v, a),
                   if video[|video| - 1].t > audio[|audio| - 1].t then video else audio, k)
    decreases |video| - v + |audio| - a
  {
    hide EndsIn, Rising;
    LastIsLatest(video, v);
    LastIsLatest(audio, a);
    var b := if video[|video| - 1].t > audio[|audio| - 1].t then video else audio;
    if video[v].t <= audio[a].t {
      if v + 1 < |video| { k := MergeTail(video, audio, v + 1, a); } else { k := a; EndsHere(audio, a); }
      EndsLater(video[v..v + 1], MergeBlocks(video, audio, v + 1, a), b, k);
    } else {
      if a + 1 < |audio| { k := MergeTail(video, audio, v, a + 1); } else { k := v; EndsHere(video, v); }
      EndsLater(audio[a..a + 1], MergeBlocks(video, audio, v, a + 1), b, k);
    }
  }

  lemma EndsHere(b: Block, k: nat)
    requires k < |b|
    ensures EndsIn([b[k..]], b, k)
  {
  }

  /** Nothing in the merge exceeds both inputs. */
  lemma {:induction false} MergeWithin(video: Block, audio: Block, v: nat, a: nat, top: real, i: nat)
    requires v <= |video| && a <= |audio| && i < |MergeBlocks(video, audio, v, a)|
    requires (forall j | v <= j < |video| :: Top(video[j]) <= top) &&
      (forall j | a <= j < |audio| :: Top(audio[j]) <= top)
    ensures BlockMax(MergeBlocks(video, audio, v, a)[i]) <= top
    decreases |video| - v + |audio| - a
  {
    hide BlockMax, Top;
    if i == 0 {
      MaxAtMost(MergeBlocks(video, audio, v, a)[0], top);
    } else if v < |video| && a < |audio| {
      if video[v].t <= audio[a].t {
        MergeWithin(video, audio, v + 1, a, top, i - 1);
      } else {
        MergeWithin(video, audio, v, a + 1, top, i - 1);
      }
    }
  }

  lemma MaxAtMost(b: Block, top: real)
    requires forall j | 0 <= j < |b| :: Top(b[j]) <= top
    ensures BlockMax(b) <= top
  {
  }

  ghost predicate Holds(blocks: seq<Block>, i: nat, p: Pos) {
    i < |blocks| && blocks[i][|blocks[i]| - 1] == p
  }

  lemma HoldsLater(x: Block, blocks: seq<Block>, i: nat, p: Pos)
    requires Holds(blocks, i, p)
    ensures Holds([x] + blocks, i + 1, p)
  {
  }

  /** The last video position is in some block of the merge. */
  lemma {:induction false} MergeHolds(video: Block, audio: Block, v: nat, a: nat) returns (i: nat)
    requires v < |video| && a <= |audio|
    ensures Holds(MergeBlocks(video, audio, v, a), i, video[|video| - 1])
    decreases |video| - v + |audio| - a
  {
    i := 0;
    if a < |audio| {
      if video[v].t > audio[a].t {
        i := MergeHolds(video, audio, v, a + 1);
        HoldsLater(audio[a..a + 1], MergeBlocks(video, audio, v, a + 1), i, video[|video| - 1]);
        i := i + 1;
      } else if v + 1 < |video| {
        hide Holds;
        i := MergeHolds(video, audio, v + 1, a);
        HoldsLater(video[v..v + 1], MergeBlocks(video, audio, v + 1, a), i, video[|video| - 1]);
        i := i + 1;
      }
    }
  }

  // ---- Starting above everything earlier ----

  /** The next block would start above every coordinate so far. */
  ghost predicate Clear(blocks: seq<Block>) {
    forall i | 0 <= i < |blocks| :: BlockMax(blocks[i]) < NextStart(blocks)
  }

  lemma MaxOfSpan(b: Block, start: real, last: Pos, k: nat)
    requires Spans(b, start, last) && b[|b| - 1] == last && k < |b|
    ensures BlockMax(b[k..]) == Top(last)
  {
    var s := b[k..];
    assert s[|s| - 1] == last;
  }

  /** Which input ends the merge decides whether the next start clears the other one. */
  lemma MergeClear(video: Block, audio: Block, start: real, v: Pos, a: Pos)
    requires Rising(video) && Spans(video, start, v) && video[|video| - 1] == v
    requires Rising(audio) && Spans(audio, start, a) && audio[|audio| - 1] == a && a == Diagonal(a.t)
    ensures Clear(MergeBlocks(video, audio, 0, 0)) <==> v.t > a.t || Top(v) < a.t + 1.0
  {
    hide MergeBlocks, BlockMax, Rising;
    var s := MergeBlocks(video, audio, 0, 0);
    var k := MergeTail(video, audio, 0, 0);
    var top := if v.t > a.t then Top(v) else Top(a);
    assert BlockMax(s[|s| - 1]) == top by {
      if v.t > a.t { MaxOfSpan(video, start, v, k); } else { MaxOfSpan(audio, start, a, k); }
    }
    var i := MergeHolds(video, audio, 0, 0);
    assert BlockMax(s[i]) >= Top(v);
    if v.t > a.t || Top(v) < a.t + 1.0 {
      forall j | 0 <= j < |s| ensures BlockMax(s[j]) < NextStart(s) {
        MergeWithin(video, audio, 0, 0, if Top(v) >= Top(a) then Top(v) else Top(a), j);
      }
    }
  }

  /** A merged segment leaves the next start above all of it exactly when its last frame is later than its
      audio, or its frames are no larger than its audio is long. */
  lemma MergeClearIff(g: Grid, merge: nat, rate: real, audioLen: nat, start: real)
    requires GoodGrid(g, merge) && rate >= 0.0 && audioLen >= 1
    ensures Clear(MergeBlocks(GridBlock(g, merge, rate, start), Line(audioLen, start), 0, 0))
      <==> Fits(g, merge, rate, audioLen)
  {
    hide GridBlock, Clear, Rising, Spans, MergeBlocks;
    GridSpans(g, merge, rate, start);
    LineSpans(audioLen, start);
    var v := Corner(LastTime(g, rate), g.h / merge, g.w / merge, start);
    MergeClear(GridBlock(g, merge, rate, start),
      Line(audioLen, start), start, v, Diagonal(start + audioLen as real - 1.0));
  }

  predicate Fits(g: Grid, merge: nat, rate: real, audioLen: nat)
    requires merge > 0
  {
    LastTime(g, rate) > audioLen as real - 1.0 || (g.h / merge <= audioLen && g.w / merge <= audioLen)
  }

  ghost predicate Above(b: seq<Pos>, x: real) {
    forall i | 0 <= i < |b| :: x <= Bottom(b[i])
  }

  lemma {:induction false} MergeAbove(video: Block, audio: Block, v: nat, a: nat, x: real, i: nat)
    requires v <= |video| && a <= |audio| && i < |MergeBlocks(video, audio, v, a)|
    requires Above(video, x) && Above(audio, x)
    ensures Above(MergeBlocks(video, audio, v, a)[i], x)
    decreases |video| - v + |audio| - a
  {
    hide Bottom;
    if v < |video| && a < |audio| && i > 0 {
      if video[v].t <= audio[a].t {
        MergeAbove(video, audio, v + 1, a, x, i - 1);
      } else {
        MergeAbove(video, audio, v, a + 1, x, i - 1);
      }
    }
  }
}
