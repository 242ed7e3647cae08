/** The three-axis position index of a token row: what the blocks are, and that they fit the tokens. */
module RopeIndex {
  import opened AudioLengths
  import opened MediaRow

  /** Position on the temporal, height and width axis. */
  datatype Pos = Pos(t: real, h: real, w: real)

  type Block = b: seq<Pos> | |b| > 0 witness [Pos(0.0, 0.0, 0.0)]

  function Top(p: Pos): real {
    if p.t >= p.h && p.t >= p.w then p.t else if p.h >= p.w then p.h else p.w
  }

  /** `block.max()`: the largest coordinate on any axis. */
  function BlockMax(b: Block): (r: real)
    ensures forall i | 0 <= i < |b| :: Top(b[i]) <= r
    ensures exists i :: 0 <= i < |b| && Top(b[i]) == r
  {
    if |b| == 1 then Top(b[0])
    else
      var m := BlockMax(b[..|b| - 1]);
      var x := Top(b[|b| - 1]);
      assert forall i | 0 <= i < |b| - 1 :: b[..|b| - 1][i] == b[i];
      if x > m then x else m
  }

  /** Where the next block starts: one above the last block, which is all the code looks at. */
  function NextStart(blocks: seq<Block>): real {
    if blocks == [] then 0.0 else BlockMax(blocks[|blocks| - 1]) + 1.0
  }

  function Diagonal(x: real): Pos {
    Pos(x, x, x)
  }

  function Line(n: nat, start: real): (r: seq<Pos>)
    ensures |r| == n && forall i | 0 <= i < n :: r[i] == Diagonal(start + i as real)
  {
    seq(n, i requires 0 <= i < n => Diagonal(start + i as real))
  }

  // ---- Vision positions ----

  function GridRow(t: real, h: nat, w: nat, start: real): (r: seq<Pos>)
    ensures |r| == w
    ensures forall i | 0 <= i < w :: r[i] == Pos(t + start, h as real + start, i as real + start)
  {
    seq(w, i requires 0 <= i < w => Pos(t + start, h as real + start, i as real + start))
  }

  function Frame(t: real, h: nat, w: nat, start: real): (r: seq<Pos>)
    ensures |r| == h * w
  {
    if h == 0 then [] else assert h * w == (h - 1) * w + w; Frame(t, h - 1, w, start) + GridRow(t, h - 1, w, start)
  }

  /** Frames one after another, frame `i` at time `times[i]`. */
  function VisionBlock(times: seq<real>, h: nat, w: nat, start: real): (r: seq<Pos>)
    ensures |r| == |times| * (h * w)
  {
    if times == [] then []
    else
      var k := |times| - 1;
      assert (k + 1) * (h * w) == k * (h * w) + h * w;
      VisionBlock(times[..k], h, w, start) + Frame(times[k], h, w, start)
  }

  function Times(n: nat, rate: real): (r: seq<real>)
    ensures |r| == n && forall i | 0 <= i < n :: r[i] == i as real * rate
  {
    seq(n, i requires 0 <= i < n => i as real * rate)
  }

  /** As many positions as the token row holds vision tokens. */
  function GridBlock(g: Grid, merge: nat, rate: real, start: real): (r: Block)
    requires GoodGrid(g, merge)
    ensures |r| == GridLen(g, merge) >= 1
  {
    GridWidth(g, merge);
    VisionBlock(Times(g.t, rate), g.h / merge, g.w / merge, start)
  }

  lemma {:induction false} GridWidth(g: Grid, merge: nat)
    requires GoodGrid(g, merge)
    ensures g.h / merge >= 1 && g.w / merge >= 1
    ensures GridLen(g, merge) == g.t * ((g.h / merge) * (g.w / merge)) >= 1
  {
    var a, b, m := g.h / merge, g.w / merge, merge;
    Split(g.h, m);
    Split(g.w, m);
    Product(a, b);
    Product(g.t, a * b);
    assert g.t * g.h * g.w == (m * m) * (g.t * (a * b)) by {
      Regroup(g.t, a, b, m);
    }
    Product(m, m);
    DivUnique(g.t * g.h * g.w, m * m, g.t * (a * b), 0);
  }

  lemma Split(n: nat, m: nat)
    requires m > 0 && n >= 1 && n % m == 0
    ensures n == m * (n / m) && n / m >= 1
  {
    assert n == m * (n / m);
  }

  lemma Product(a: nat, b: nat)
    requires a >= 1 && b >= 1
    ensures a * b >= 1
  {
  }

  lemma Regroup(t: nat, a: nat, b: nat, m: nat)
    ensures t * (m * a) * (m * b) == (m * m) * (t * (a * b))
  {
    calc {
      t * (m * a) * (m * b);
      t * ((m * a) * (m * b));
      { assert (m * a) * (m * b) == (m * m) * (a * b); }
      t * ((m * m) * (a * b));
      (m * m) * (t * (a * b));
    }
  }

  lemma {:induction false} FrameAt(t: real, h: nat, w: nat, start: real, y: nat, x: nat)
    requires y < h && x < w
    ensures y * w + x < h * w
    ensures Frame(t, h, w, start)[y * w + x] == Pos(t + start, y as real + start, x as real + start)
  {
    RowsBefore(y, h, w);
    if y < h - 1 { FrameAt(t, h - 1, w, start, y, x); }
  }

  lemma Monotone(a: nat, b: nat, w: nat)
    requires a <= b
    ensures a * w <= b * w
  {
    assert b * w - a * w == (b - a) * w;
    assert (b - a) * w >= 0;
  }

  lemma RowsBefore(y: nat, h: nat, w: nat)
    requires y < h
    ensures y * w + w <= h * w && h * w == (h - 1) * w + w
    ensures y < h - 1 ==> y * w + w <= (h - 1) * w
  {
    assert (y + 1) * w == y * w + w && (h - 1) * w == h * w - w;
    Monotone(y + 1, h, w);
    if y < h - 1 { Monotone(y + 1, h - 1, w); }
  }

  /** Patches are numbered frame by frame, row by row: patch `x` of row `y` of frame `f` gets that frame's time, its
      row and its column. */
  lemma {:induction false} VisionAt(times: seq<real>, h: nat, w: nat, start: real, f: nat, y: nat, x: nat)
    requires f < |times| && y < h && x < w
    ensures f * (h * w) + (y * w + x) < |times| * (h * w)
    ensures VisionBlock(times, h, w, start)[f * (h * w) + (y * w + x)]
         == Pos(times[f] + start, y as real + start, x as real + start)
  {
    hide Frame;
    var k := |times| - 1;
    FrameAt(times[k], h, w, start, y, x);
    RowsBefore(f, |times|, h * w);
    if f < k { VisionAt(times[..k], h, w, start, f, y, x); }
  }

  // ---- Audio in video ----

  /** The block list the two-cursor merge appends, from video position `v` and audio position `a` on. */
  function MergeBlocks(video: Block, audio: Block, v: nat, a: nat): seq<Block>
    requires v <= |video| && a <= |audio|
    decreases |video| - v + |audio| - a
  {
    if v < |video| && a < |audio| then
      if video[v].t <= audio[a].t then [video[v..v + 1]] + MergeBlocks(video, audio, v + 1, a)
      else [audio[a..a + 1]] + MergeBlocks(video, audio, v, a + 1)
    else
      (if v < |video| then [video[v..]] else []) + (if a < |audio| then [audio[a..]] else [])
  }

  // ---- One segment ----

  /** The batch inputs and the number of positions a second takes. */
  datatype Config = Config(inp: Inputs, perSecond: real)

  /** Positions per frame of the next video. */
  function Rate(cfg: Config, c: Cursor): real
    requires c.video < |cfg.inp.rates|
  {
    cfg.inp.rates[c.video] * cfg.perSecond
  }

  function VideoBlock(cfg: Config, c: Cursor, start: real): Block
    requires c.video < |cfg.inp.videos| && c.video < |cfg.inp.rates| && GoodGrid(cfg.inp.videos[c.video], cfg.inp.merge)
  {
    GridBlock(cfg.inp.videos[c.video], cfg.inp.merge, Rate(cfg, c), start)
  }

  function MediaBlocks(m: Media, cfg: Config, c: Cursor, start: real): seq<Block>
    requires GoodMedia(m, cfg.inp, c)
  {
    var inp := cfg.inp;
    match m
    case Audio => [Line(FeatLen(inp.audios[c.audio]), start)]
    case Image => [GridBlock(inp.images[c.image], inp.merge, cfg.perSecond, start)]
    case Video => [VideoBlock(cfg, c, start)]
    case AudioVideo(_) => MergeBlocks(VideoBlock(cfg, c, start), Line(FeatLen(inp.audios[c.audio]), start), 0, 0)
  }

  function Edge(m: Media): (r: nat)
    ensures r >= 1
  {
    if m.AudioVideo? then 2 else 1
  }

  // ---- The whole row ----

  function WithText(n: nat, blocks: seq<Block>): seq<Block> {
    if n == 0 then blocks else blocks + [Line(n, NextStart(blocks))]
  }

  /** The block list before an item's closing markers. Only the text looks at the list: the segment starts
      where the opening markers end. */
  function Filled(it: Item, cfg: Config, c: Cursor, blocks: seq<Block>): seq<Block>
    requires GoodMedia(it.media, cfg.inp, c)
  {
    var edge := Edge(it.media);
    var open := NextStart(blocks) + |it.text| as real;
    WithText(|it.text|, blocks) + [Line(edge, open)] + MediaBlocks(it.media, cfg, c, open + edge as real)
  }

  /** The block list after one item: text, opening markers, the segment, closing markers. */
  function AddItem(it: Item, cfg: Config, c: Cursor, blocks: seq<Block>): seq<Block>
    requires GoodMedia(it.media, cfg.inp, c)
  {
    var filled := Filled(it, cfg, c, blocks);
    filled + [Line(Edge(it.media), NextStart(filled))]
  }

  function Walk(items: seq<Item>, tail: nat, cfg: Config, c: Cursor, blocks: seq<Block>): seq<Block>
    requires GoodItems(items, cfg.inp, c)
  {
    if items == [] then WithText(tail, blocks)
    else Walk(items[1..], tail, cfg, Next(items[0].media, c), AddItem(items[0], cfg, c, blocks))
  }

  function Positions(blocks: seq<Block>): seq<Pos> {
    if blocks == [] then [] else Positions(blocks[..|blocks| - 1]) + blocks[|blocks| - 1]
  }

  lemma {:induction false} PositionsConcat(a: seq<Block>, b: seq<Block>)
    ensures Positions(a + b) == Positions(a) + Positions(b)
  {
    if b == [] {
      assert a + b == a;
    } else {
      assert (a + b)[..|a + b| - 1] == a + b[..|b| - 1];
      PositionsConcat(a, b[..|b| - 1]);
    }
  }

  lemma {:induction false} MergeWidth(video: Block, audio: Block, v: nat, a: nat)
    requires v <= |video| && a <= |audio|
    ensures |Positions(MergeBlocks(video, audio, v, a))| == |video| - v + |audio| - a
    decreases |video| - v + |audio| - a
  {
    if v < |video| && a < |audio| {
      if video[v].t <= audio[a].t {
        MergeWidth(video, audio, v + 1, a);
        PositionsConcat([video[v..v + 1]], MergeBlocks(video, audio, v + 1, a));
      } else {
        MergeWidth(video, audio, v, a + 1);
        PositionsConcat([audio[a..a + 1]], MergeBlocks(video, audio, v, a + 1));
      }
    }
  }

  /** A segment's blocks are as wide as its tokens, markers aside. */
  lemma MediaWidth(m: Media, cfg: Config, c: Cursor, start: real)
    requires GoodMedia(m, cfg.inp, c)
    ensures |MediaTokens(m, cfg.inp, c)| == |Positions(MediaBlocks(m, cfg, c, start))| + 2 * Edge(m)
    ensures |MediaBlocks(m, cfg, c, start)| >= 1
  {
    hide FeatLen, GoodGrid, GridLen, GridBlock;
    if m.AudioVideo? {
      MergeWidth(VideoBlock(cfg, c, start), Line(FeatLen(cfg.inp.audios[c.audio]), start), 0, 0);
    } else {
      OnePosition(MediaBlocks(m, cfg, c, start)[0]);
    }
  }

  lemma OnePosition(b: Block)
    ensures Positions([b]) == b
  {
    assert [b][..0] == [];
  }

  /** One item appends exactly one position for each of its tokens. */
  lemma AddItemWidth(it: Item, cfg: Config, c: Cursor, blocks: seq<Block>)
    requires GoodMedia(it.media, cfg.inp, c)
    ensures |Positions(AddItem(it, cfg, c, blocks))|
         == |Positions(blocks)| + |it.text| + |MediaTokens(it.media, cfg.inp, c)|
  {
    hide GoodMedia, MediaBlocks, MediaTokens, NextStart, Positions;
    var edge := Edge(it.media);
    var open := NextStart(blocks) + |it.text| as real;
    var media := MediaBlocks(it.media, cfg, c, open + edge as real);
    MediaWidth(it.media, cfg, c, open + edge as real);
    var headed := WithText(|it.text|, blocks) + [Line(edge, open)];
    var filled := headed + media;
    TextWidth(|it.text|, blocks);
    SnocWidth(WithText(|it.text|, blocks), Line(edge, open));
    PositionsConcat(headed, media);
    SnocWidth(filled, Line(edge, NextStart(filled)));
  }

  lemma SnocWidth(blocks: seq<Block>, b: Block)
    ensures Positions(blocks + [b]) == Positions(blocks) + b
  {
    OnePosition(b);
    PositionsConcat(blocks, [b]);
  }

  lemma TextWidth(n: nat, blocks: seq<Block>)
    ensures |Positions(WithText(n, blocks))| == |Positions(blocks)| + n
  {
    if n > 0 { SnocWidth(blocks, Line(n, NextStart(blocks))); }
  }

  /** Exactly one position per token, for every row of text, audio, image, video and audio-in-video
      segments in any order. */
  lemma {:induction false} OnePositionPerToken(
    items: seq<Item>, tail: seq<Token>, cfg: Config, c: Cursor, blocks: seq<Block>)
    requires GoodItems(items, cfg.inp, c)
    ensures |Positions(Walk(items, |tail|, cfg, c, blocks))|
         == |Positions(blocks)| + |RowTokens(items, tail, cfg.inp, c)|
  {
    hide GoodMedia, MediaTokens, AddItem, Positions, WithText;
    if items == [] {
      TextWidth(|tail|, blocks);
    } else {
      AddItemWidth(items[0], cfg, c, blocks);
      OnePositionPerToken(items[1..], tail, cfg, Next(items[0].media, c), AddItem(items[0], cfg, c, blocks));
    }
  }
}
