/** Whole-row order: the temporal axis, the starts of segments, and when they clear everything earlier. */
module RopeRowOrder {
  import opened AudioLengths
  import opened MediaRow
  import opened RopeIndex
  import opened RopeOrder

  // ---- Single steps ----

  lemma LineTop(n: nat, start: real)
    requires n >= 1
    ensures BlockMax(Line(n, start)) == start + n as real - 1.0
    ensures Above(Line(n, start), start) && RisesFrom(Line(n, start), start)
  {
    LineSpans(n, start);
    MaxOfSpan(Line(n, start), start, Diagonal(start + n as real - 1.0), 0);
    assert Line(n, start)[0..] == Line(n, start);
  }

  /** Text moves the next start on by its length. */
  lemma TextStart(n: nat, blocks: seq<Block>)
    ensures NextStart(WithText(n, blocks)) == NextStart(blocks) + n as real
  {
    hide BlockMax;
    if n > 0 { LineTop(n, NextStart(blocks)); }
  }

  lemma LineStart(blocks: seq<Block>, n: nat, start: real)
    requires n >= 1
    ensures NextStart(blocks + [Line(n, start)]) == start + n as real
  {
    hide BlockMax;
    LineTop(n, start);
  }

  lemma AboveMax(b: Block, x: real)
    requires Above(b, x)
    ensures x <= BlockMax(b)
  {
    assert Bottom(b[0]) <= Top(b[0]);
  }

  /** After blocks above the next start, the list is clear exactly when they are clear among themselves. */
  lemma AppendClear(blocks: seq<Block>, more: seq<Block>)
    requires Clear(blocks) && more != [] && forall i | 0 <= i < |more| :: Above(more[i], NextStart(blocks))
    ensures Clear(blocks + more) <==> Clear(more)
  {
    hide BlockMax, Above;
    var all := blocks + more;
    assert NextStart(all) == NextStart(more);
    forall i | 0 <= i < |blocks| ensures BlockMax(all[i]) < NextStart(all) {
      AboveMax(more[|more| - 1], NextStart(blocks));
      assert all[i] == blocks[i];
    }
    forall i | 0 <= i < |more| ensures all[|blocks| + i] == more[i] {}
  }

  lemma OneClear(b: Block)
    ensures Clear([b])
  {
  }

  lemma LineClear(blocks: seq<Block>, n: nat)
    requires Clear(blocks) && n >= 1
    ensures Clear(blocks + [Line(n, NextStart(blocks))])
  {
    hide Clear, Above, NextStart;
    LineTop(n, NextStart(blocks));
    OneClear(Line(n, NextStart(blocks)));
    AppendClear(blocks, [Line(n, NextStart(blocks))]);
  }

  lemma SpansAbove(b: Block, start: real, last: Pos)
    requires Spans(b, start, last)
    ensures Above(b, start)
  {
  }

  lemma VisionAbove(g: Grid, merge: nat, rate: real, start: real)
    requires GoodGrid(g, merge) && rate >= 0.0
    ensures Above(GridBlock(g, merge, rate, start), start)
  {
    hide GridBlock, Spans, Above, Rising;
    GridSpans(g, merge, rate, start);
    SpansAbove(GridBlock(g, merge, rate, start), start, Corner(LastTime(g, rate), g.h / merge, g.w / merge, start));
  }

  /** The audio of the segment covers its video, or the segment has no video to cover. */
  predicate SegmentFits(m: Media, cfg: Config, c: Cursor)
    requires GoodMedia(m, cfg.inp, c)
  {
    m.AudioVideo? ==>
      Fits(cfg.inp.videos[c.video], cfg.inp.merge, Rate(cfg, c), FeatLen(cfg.inp.audios[c.audio]))
  }

  lemma RateSign(cfg: Config, c: Cursor)
    requires cfg.perSecond >= 0.0 && c.video < |cfg.inp.rates| && cfg.inp.rates[c.video] >= 0.0
    ensures Rate(cfg, c) >= 0.0
  {
  }

  predicate HasVideo(cfg: Config, c: Cursor) {
    c.video < |cfg.inp.videos| && c.video < |cfg.inp.rates| && GoodGrid(cfg.inp.videos[c.video], cfg.inp.merge)
    && Rate(cfg, c) >= 0.0
  }

  lemma VideoAbove(cfg: Config, c: Cursor, start: real)
    requires HasVideo(cfg, c)
    ensures Above(VideoBlock(cfg, c, start), start)
  {
    hide Above, VisionBlock, Rate;
    VisionAbove(cfg.inp.videos[c.video], cfg.inp.merge, Rate(cfg, c), start);
  }

  lemma MergedAbove(cfg: Config, c: Cursor, n: nat, start: real, i: nat)
    requires HasVideo(cfg, c) && n >= 1
    requires i < |MergeBlocks(VideoBlock(cfg, c, start), Line(n, start), 0, 0)|
    ensures Above(MergeBlocks(VideoBlock(cfg, c, start), Line(n, start), 0, 0)[i], start)
  {
    hide Above, GridBlock, MergeBlocks, VideoBlock;
    VideoAbove(cfg, c, start);
    LineTop(n, start);
    MergeAbove(VideoBlock(cfg, c, start), Line(n, start), 0, 0, start, i);
  }

  lemma MediaAbove(m: Media, cfg: Config, c: Cursor, start: real, i: nat)
    requires GoodMedia(m, cfg.inp, c) && cfg.perSecond >= 0.0 && i < |MediaBlocks(m, cfg, c, start)|
    ensures Above(MediaBlocks(m, cfg, c, start)[i], start)
  {
    hide Above, GridBlock, Rate, VideoBlock, GoodGrid, MergeBlocks, FeatLen;
    match m
    case Audio => LineTop(FeatLen(cfg.inp.audios[c.audio]), start);
    case Image => VisionAbove(cfg.inp.images[c.image], cfg.inp.merge, cfg.perSecond, start);
    case Video => RateSign(cfg, c); VideoAbove(cfg, c, start);
    case AudioVideo(_) => RateSign(cfg, c); MergedAbove(cfg, c, FeatLen(cfg.inp.audios[c.audio]), start, i);
  }

  lemma MergedClearIff(cfg: Config, c: Cursor, n: nat, start: real)
    requires HasVideo(cfg, c) && n >= 1
    ensures Clear(MergeBlocks(VideoBlock(cfg, c, start), Line(n, start), 0, 0))
      <==> Fits(cfg.inp.videos[c.video], cfg.inp.merge, Rate(cfg, c), n)
  {
    hide Clear, VisionBlock, Rate, MergeBlocks, Fits;
    MergeClearIff(cfg.inp.videos[c.video], cfg.inp.merge, Rate(cfg, c), n, start);
  }

  lemma MediaClearIff(m: Media, cfg: Config, c: Cursor, start: real)
    requires GoodMedia(m, cfg.inp, c) && cfg.perSecond >= 0.0
    ensures MediaBlocks(m, cfg, c, start) != []
    ensures Clear(MediaBlocks(m, cfg, c, start)) <==> SegmentFits(m, cfg, c)
  {
    hide Clear, GridBlock, Rate, VideoBlock, GoodGrid, MergeBlocks, FeatLen, Fits;
    MediaWidth(m, cfg, c, start);
    if m.AudioVideo? {
      RateSign(cfg, c);
      MergedClearIff(cfg, c, FeatLen(cfg.inp.audios[c.audio]), start);
    } else {
      OneClear(MediaBlocks(m, cfg, c, start)[0]);
    }
  }

  lemma HeadedClear(n: nat, edge: nat, blocks: seq<Block>)
    requires Clear(blocks) && edge >= 1
    ensures var headed := WithText(n, blocks) + [Line(edge, NextStart(blocks) + n as real)];
      Clear(headed) && NextStart(headed) == NextStart(blocks) + n as real + edge as real
  {
    hide Clear, NextStart;
    if n > 0 { LineClear(blocks, n); }
    TextStart(n, blocks);
    LineClear(WithText(n, blocks), edge);
    LineStart(WithText(n, blocks), edge, NextStart(blocks) + n as real);
  }

  /** The closing markers of a segment start above every earlier coordinate exactly when it fits. */
  lemma {:induction false} FilledClearIff(it: Item, cfg: Config, c: Cursor, blocks: seq<Block>)
    requires GoodMedia(it.media, cfg.inp, c) && cfg.perSecond >= 0.0 && Clear(blocks)
    ensures Clear(Filled(it, cfg, c, blocks)) <==> SegmentFits(it.media, cfg, c)
  {
    hide GoodMedia, Clear, MediaBlocks, NextStart, WithText, SegmentFits, Above;
    var edge := Edge(it.media);
    var headed := WithText(|it.text|, blocks) + [Line(edge, NextStart(blocks) + |it.text| as real)];
    HeadedClear(|it.text|, edge, blocks);
    var start := NextStart(headed);
    var media := MediaBlocks(it.media, cfg, c, start);
    MediaClearIff(it.media, cfg, c, start);
    forall i | 0 <= i < |media| ensures Above(media[i], start) { MediaAbove(it.media, cfg, c, start, i); }
    AppendClear(headed, media);
  }

  // ---- Rows ----

  /** Every segment's closing markers, and the text after them, start above everything before. */
  ghost predicate AllClear(items: seq<Item>, cfg: Config, c: Cursor, blocks: seq<Block>)
    requires GoodItems(items, cfg.inp, c)
  {
    Clear(blocks)
    && (items != [] ==>
          Clear(Filled(items[0], cfg, c, blocks))
          && AllClear(items[1..], cfg, Next(items[0].media, c), AddItem(items[0], cfg, c, blocks)))
  }

  predicate AllFit(items: seq<Item>, cfg: Config, c: Cursor)
    requires GoodItems(items, cfg.inp, c)
  {
    items != [] ==> SegmentFits(items[0].media, cfg, c) && AllFit(items[1..], cfg, Next(items[0].media, c))
  }

  /** For every row: each start clears everything earlier exactly when every audio-in-video segment fits. */
  lemma {:induction false} RowClearIff(items: seq<Item>, cfg: Config, c: Cursor, blocks: seq<Block>)
    requires GoodItems(items, cfg.inp, c) && cfg.perSecond >= 0.0 && Clear(blocks)
    ensures AllClear(items, cfg, c, blocks) <==> AllFit(items, cfg, c)
  {
    if items != [] {
      hide GoodMedia, Clear, Filled, SegmentFits, NextStart;
      FilledClearIff(items[0], cfg, c, blocks);
      if SegmentFits(items[0].media, cfg, c) {
        LineClear(Filled(items[0], cfg, c, blocks), Edge(items[0].media));
        RowClearIff(items[1..], cfg, Next(items[0].media, c), AddItem(items[0], cfg, c, blocks));
      }
    }
  }

  /** One frame of four by one patches beside a single audio position: the closing markers start at 3 although
      the row already reached 5. */
  lemma TallFrameExample()
    ensures var cfg := Config(Inputs(2, [], [Grid(1, 8, 2)], [1.0], [1], true), 25.0); var c := Cursor(0, 0, 0);
      var it := Item([], AudioVideo([true, true, true, true, false]));
      && GoodMedia(it.media, cfg.inp, c) && !Clear(Filled(it, cfg, c, []))
  {
    var cfg := Config(Inputs(2, [], [Grid(1, 8, 2)], [1.0], [1], true), 25.0);
    var c := Cursor(0, 0, 0);
    var it := Item([], AudioVideo([true, true, true, true, false]));
    assert Trues([false]) == 0 && Trues([true, false]) == 1 && Trues([true, true, false]) == 2;
    assert it.media.mix == [true] + ([true] + [true, true, false]);
    assert GoodMedia(it.media, cfg.inp, c);
    FilledClearIff(it, cfg, c, []);
  }

  // ---- Rows without audio-in-video ----

  /** Every block lies strictly above every earlier one, on all three axes. */
  ghost predicate Apart(blocks: seq<Block>) {
    forall i, j | 0 <= i < j < |blocks| :: BlockMax(blocks[i]) < BlockMin(blocks[j])
  }

  function BlockMin(b: Block): (r: real)
    ensures forall i | 0 <= i < |b| :: r <= Bottom(b[i])
    ensures exists i :: 0 <= i < |b| && Bottom(b[i]) == r
  {
    if |b| == 1 then Bottom(b[0])
    else
      var m := BlockMin(b[..|b| - 1]);
      var x := Bottom(b[|b| - 1]);
      assert forall i | 0 <= i < |b| - 1 :: b[..|b| - 1][i] == b[i];
      if x < m then x else m
  }

  lemma AboveMin(b: Block, x: real)
    requires Above(b, x)
    ensures x <= BlockMin(b)
  {
  }

  ghost predicate Ordered(blocks: seq<Block>) {
    Apart(blocks) && Clear(blocks)
  }

  lemma AppendOrdered(blocks: seq<Block>, b: Block)
    requires Ordered(blocks) && Above(b, NextStart(blocks))
    ensures Ordered(blocks + [b])
  {
    hide BlockMax, BlockMin, Above;
    AboveMin(b, NextStart(blocks));
    OneClear(b);
    AppendClear(blocks, [b]);
  }

  lemma LineOrdered(blocks: seq<Block>, n: nat)
    requires Ordered(blocks) && n >= 1
    ensures Ordered(blocks + [Line(n, NextStart(blocks))])
  {
    hide Ordered, Above, NextStart;
    LineTop(n, NextStart(blocks));
    AppendOrdered(blocks, Line(n, NextStart(blocks)));
  }

  lemma ItemOrdered(it: Item, cfg: Config, c: Cursor, blocks: seq<Block>)
    requires GoodMedia(it.media, cfg.inp, c) && cfg.perSecond >= 0.0 && Ordered(blocks) && !it.media.AudioVideo?
    ensures Ordered(AddItem(it, cfg, c, blocks))
  {
    hide GoodMedia, Ordered, NextStart, Above, GridBlock, VideoBlock;
    if |it.text| > 0 { LineOrdered(blocks, |it.text|); }
    TextStart(|it.text|, blocks);
    var texted := WithText(|it.text|, blocks);
    LineOrdered(texted, 1);
    LineStart(texted, 1, NextStart(texted));
    var headed := texted + [Line(1, NextStart(texted))];
    var media := MediaBlocks(it.media, cfg, c, NextStart(headed));
    assert |media| == 1;
    MediaAbove(it.media, cfg, c, NextStart(headed), 0);
    AppendOrdered(headed, media[0]);
    assert media == [media[0]];
    LineOrdered(headed + media, 1);
  }

  /** Without audio-in-video, every text, marker and media block of a row lies strictly above every earlier
      block on all three axes. */
  lemma {:induction false} SegmentsAscend(items: seq<Item>, tail: nat, cfg: Config, c: Cursor, blocks: seq<Block>)
    requires GoodItems(items, cfg.inp, c) && cfg.perSecond >= 0.0 && Ordered(blocks)
    requires forall i | 0 <= i < |items| :: !items[i].media.AudioVideo?
    ensures Ordered(Walk(items, tail, cfg, c, blocks))
  {
    hide GoodMedia, Ordered, AddItem;
    if items == [] {
      if tail > 0 { LineOrdered(blocks, tail); }
    } else {
      ItemOrdered(items[0], cfg, c, blocks);
      SegmentsAscend(items[1..], tail, cfg, Next(items[0].media, c), AddItem(items[0], cfg, c, blocks));
    }
  }

  /** The same, position by position. */
  lemma {:induction false} PositionsAscend(
      items: seq<Item>, tail: nat, cfg: Config, c: Cursor, a: nat, b: nat, i: nat, j: nat)
    requires GoodItems(items, cfg.inp, c) && cfg.perSecond >= 0.0
    requires forall k | 0 <= k < |items| :: !items[k].media.AudioVideo?
    requires var blocks := Walk(items, tail, cfg, c, []); a < b < |blocks| && i < |blocks[a]| && j < |blocks[b]|
    ensures var blocks := Walk(items, tail, cfg, c, []); Top(blocks[a][i]) < Bottom(blocks[b][j])
  {
    hide GoodItems, Walk, Top, Bottom;
    SegmentsAscend(items, tail, cfg, c, []);
  }

  // ---- The temporal axis ----

  ghost predicate Timely(blocks: seq<Block>) {
    Rising(Positions(blocks))
  }

  lemma TimelyBelow(blocks: seq<Block>, i: nat)
    requires Timely(blocks) && i < |Positions(blocks)|
    ensures Positions(blocks)[i].t < NextStart(blocks)
  {
    var s := Positions(blocks);
    var last := blocks[|blocks| - 1];
    assert s[|s| - 1] == last[|last| - 1];
    assert Top(last[|last| - 1]) <= BlockMax(last);
  }

  lemma AppendTimely(blocks: seq<Block>, more: seq<Block>)
    requires Timely(blocks) && RisesFrom(Positions(more), NextStart(blocks))
    ensures Timely(blocks + more)
  {
    hide Positions, NextStart;
    forall i | 0 <= i < |Positions(blocks)| ensures Positions(blocks)[i].t <= NextStart(blocks) {
      TimelyBelow(blocks, i);
    }
    PositionsConcat(blocks, more);
    RisingConcat(Positions(blocks), Positions(more), NextStart(blocks));
  }

  lemma LineTimely(blocks: seq<Block>, n: nat)
    requires Timely(blocks) && n >= 1
    ensures Timely(blocks + [Line(n, NextStart(blocks))])
  {
    hide Positions, NextStart, RisesFrom, Timely;
    LineTop(n, NextStart(blocks));
    OnePosition(Line(n, NextStart(blocks)));
    AppendTimely(blocks, [Line(n, NextStart(blocks))]);
  }

  lemma VisionRises(g: Grid, merge: nat, rate: real, start: real)
    requires GoodGrid(g, merge) && rate >= 0.0
    ensures RisesFrom(GridBlock(g, merge, rate, start), start)
  {
    hide GridBlock;
    GridSpans(g, merge, rate, start);
  }

  lemma VideoRises(cfg: Config, c: Cursor, start: real)
    requires HasVideo(cfg, c)
    ensures RisesFrom(VideoBlock(cfg, c, start), start)
  {
    hide RisesFrom, VisionBlock, Rate;
    VisionRises(cfg.inp.videos[c.video], cfg.inp.merge, Rate(cfg, c), start);
  }

  lemma MergedRises(cfg: Config, c: Cursor, n: nat, start: real)
    requires HasVideo(cfg, c) && n >= 1
    ensures RisesFrom(Positions(MergeBlocks(VideoBlock(cfg, c, start), Line(n, start), 0, 0)), start)
  {
    hide GridBlock, MergeBlocks, VideoBlock, Positions;
    VideoRises(cfg, c, start);
    LineTop(n, start);
    MergeRises(VideoBlock(cfg, c, start), Line(n, start), 0, 0, start);
  }

  lemma MediaRises(m: Media, cfg: Config, c: Cursor, start: real)
    requires GoodMedia(m, cfg.inp, c) && cfg.perSecond >= 0.0
    ensures RisesFrom(Positions(MediaBlocks(m, cfg, c, start)), start)
  {
    hide RisesFrom, GridBlock, Rate, VideoBlock, GoodGrid, MergeBlocks, FeatLen, Positions;
    match m
    case Audio =>
      LineTop(FeatLen(cfg.inp.audios[c.audio]), start);
      OnePosition(Line(FeatLen(cfg.inp.audios[c.audio]), start));
    case Image =>
      VisionRises(cfg.inp.images[c.image], cfg.inp.merge, cfg.perSecond, start);
      OnePosition(GridBlock(cfg.inp.images[c.image], cfg.inp.merge, cfg.perSecond, start));
    case Video => RateSign(cfg, c); VideoRises(cfg, c, start); OnePosition(VideoBlock(cfg, c, start));
    case AudioVideo(_) => RateSign(cfg, c); MergedRises(cfg, c, FeatLen(cfg.inp.audios[c.audio]), start);
  }

  lemma ItemTimely(it: Item, cfg: Config, c: Cursor, blocks: seq<Block>)
    requires GoodMedia(it.media, cfg.inp, c) && cfg.perSecond >= 0.0 && Timely(blocks)
    ensures Timely(AddItem(it, cfg, c, blocks))
  {
    hide GoodMedia, Timely, NextStart, MediaBlocks, RisesFrom;
    var edge := Edge(it.media);
    if |it.text| > 0 { LineTimely(blocks, |it.text|); }
    TextStart(|it.text|, blocks);
    var texted := WithText(|it.text|, blocks);
    LineTimely(texted, edge);
    LineStart(texted, edge, NextStart(texted));
    var headed := texted + [Line(edge, NextStart(texted))];
    MediaRises(it.media, cfg, c, NextStart(headed));
    AppendTimely(headed, MediaBlocks(it.media, cfg, c, NextStart(headed)));
    LineTimely(Filled(it, cfg, c, blocks), edge);
  }

  /** For every row of segments in any order, the temporal axis never decreases. */
  lemma {:induction false} TimeNeverDecreases(items: seq<Item>, tail: nat, cfg: Config, c: Cursor, blocks: seq<Block>)
    requires GoodItems(items, cfg.inp, c) && cfg.perSecond >= 0.0 && Timely(blocks)
    ensures Timely(Walk(items, tail, cfg, c, blocks))
  {
    hide GoodMedia, Timely, AddItem;
    if items == [] {
      if tail > 0 { LineTimely(blocks, tail); }
    } else {
      ItemTimely(items[0], cfg, c, blocks);
      TimeNeverDecreases(items[1..], tail, cfg, Next(items[0].media, c), AddItem(items[0], cfg, c, blocks));
    }
  }
}
