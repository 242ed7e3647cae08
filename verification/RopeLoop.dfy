/** The cursor loop that assigns positions to one row. */
module RopeLoop {
  import opened Sequences
  import opened AudioLengths
  import opened MediaRow
  import opened RopeIndex
  import opened RopePoints

  /** `list.index(x, from)`: the first occurrence. */
  function Index(tokens: seq<Token>, x: Token, from: nat): (r: nat)
    requires from <= |tokens| && x in tokens[from..]
    ensures from <= r < |tokens| && tokens[r] == x
    ensures forall j | from <= j < r :: tokens[j] != x
    decreases |tokens| - from
  {
    if tokens[from] == x then from else Index(tokens, x, from + 1)
  }

  function Count(tokens: seq<Token>, x: Token): nat {
    if tokens == [] then 0 else Count(tokens[..|tokens| - 1], x) + if tokens[|tokens| - 1] == x then 1 else 0
  }

  /** How many vision start markers are followed by `x`. */
  function CountAfterStart(tokens: seq<Token>, x: Token): nat {
    if |tokens| <= 1 then 0
    else
      var k := |tokens| - 1;
      CountAfterStart(tokens[..k], x) + if tokens[k - 1] == VisionStart && tokens[k] == x then 1 else 0
  }

  lemma {:induction false} CountConcat(a: seq<Token>, b: seq<Token>, x: Token)
    ensures Count(a + b, x) == Count(a, x) + Count(b, x)
  {
    if b == [] {
      assert a + b == a;
    } else {
      assert (a + b)[..|a + b| - 1] == a + b[..|b| - 1];
      CountConcat(a, b[..|b| - 1], x);
    }
  }

  /** No marker straddles the seam. */
  lemma {:induction false} CountAfterConcat(a: seq<Token>, b: seq<Token>, x: Token)
    requires a == [] || a[|a| - 1] != VisionStart
    ensures CountAfterStart(a + b, x) == CountAfterStart(a, x) + CountAfterStart(b, x)
  {
    if b == [] {
      assert a + b == a;
    } else if a == [] {
      assert a + b == b;
    } else {
      hide CountAfterStart;
      CountAfterConcat(a, b[..|b| - 1], x);
      CountAfterSnoc(a + b[..|b| - 1], b[|b| - 1], x);
      CountAfterSnoc(b[..|b| - 1], b[|b| - 1], x);
      assert a + b == a + b[..|b| - 1] + [b[|b| - 1]] && b == b[..|b| - 1] + [b[|b| - 1]];
    }
  }

  lemma CountAfterSnoc(s: seq<Token>, y: Token, x: Token)
    ensures CountAfterStart(s + [y], x)
         == CountAfterStart(s, x) + if s != [] && s[|s| - 1] == VisionStart && y == x then 1 else 0
  {
    assert (s + [y])[..|s|] == s;
  }

  lemma {:induction false} CountNone(tokens: seq<Token>, x: Token)
    requires forall i | 0 <= i < |tokens| :: tokens[i] != x
    ensures Count(tokens, x) == 0
  {
    if tokens != [] { CountNone(tokens[..|tokens| - 1], x); }
  }

  lemma {:induction false} CountAfterNone(tokens: seq<Token>, x: Token)
    requires forall i | 0 <= i < |tokens| - 1 :: tokens[i] != VisionStart
    ensures CountAfterStart(tokens, x) == 0
  {
    if |tokens| > 1 { CountAfterNone(tokens[..|tokens| - 1], x); }
  }

  // ---- What the items hold ----

  function Images(items: seq<Item>): nat {
    if items == [] then 0 else (if items[0].media.Image? then 1 else 0) + Images(items[1..])
  }

  function Videos(items: seq<Item>): nat {
    if items == [] then 0
    else (if items[0].media.Video? || items[0].media.AudioVideo? then 1 else 0) + Videos(items[1..])
  }

  function Audios(items: seq<Item>): nat {
    if items == [] then 0
    else (if items[0].media.Audio? || items[0].media.AudioVideo? then 1 else 0) + Audios(items[1..])
  }

  /** Every media segment of the batch is served by the next unused input of its kind. */
  lemma {:induction false} CursorCounts(items: seq<Item>, c: Cursor)
    ensures CursorAfter(items, c)
         == Cursor(c.image + Images(items), c.video + Videos(items), c.audio + Audios(items))
  {
    if items != [] { CursorCounts(items[1..], Next(items[0].media, c)); }
  }

  /** The token a vision start marker of a video segment is followed by. */
  function VideoMark(useAudioInVideo: bool): Token {
    if useAudioInVideo then AudioStart else VideoPad
  }

  /** A segment's shape: its outer markers, and that no other marker is inside, save the second one of an
      audio-in-video segment. */
  ghost predicate Shaped(s: seq<Token>, m: Media) {
    && |s| >= 3 && s[0] == (if m.Audio? then AudioStart else VisionStart)
    && s[1] == (match m case Audio => AudioPad case Image => ImagePad
        case Video => VideoPad case AudioVideo(_) => AudioStart)
    && s[|s| - 1] == (if m.Audio? then AudioEnd else VisionEnd)
    && (forall i | 1 <= i < |s| :: s[i] != VisionStart && (s[i] == AudioStart ==> m.AudioVideo? && i == 1))
    && (m.AudioVideo? ==> AudioPad in s && VideoPad in s)
  }

  lemma RepeatShape(m: Media, open: Token, pad: Token, n: nat, close: Token)
    requires !m.AudioVideo? && n >= 1
    requires open == (if m.Audio? then AudioStart else VisionStart) &&
      close == (if m.Audio? then AudioEnd else VisionEnd)
    requires pad == if m.Audio? then AudioPad else if m.Image? then ImagePad else VideoPad
    ensures Shaped([open] + Copies(pad, n) + [close], m)
  {
  }

  lemma MixedShape(m: Media)
    requires m.AudioVideo? && true in m.mix && false in m.mix
    ensures Shaped([VisionStart, AudioStart] + Mixed(m.mix) + [AudioEnd, VisionEnd], m)
  {
    hide Mixed;
    var v := FirstOf(m.mix, true);
    var a := FirstOf(m.mix, false);
    var s := [VisionStart, AudioStart] + Mixed(m.mix) + [AudioEnd, VisionEnd];
    assert s[v + 2] == Mixed(m.mix)[v] && s[a + 2] == Mixed(m.mix)[a];
  }

  lemma MediaShape(m: Media, inp: Inputs, c: Cursor)
    requires GoodMedia(m, inp, c)
    ensures Shaped(MediaTokens(m, inp, c), m)
  {
    hide FeatLen, GridLen, GoodGrid, Shaped;
    GridSome(m, inp, c);
    match m
    case Audio => RepeatShape(m, AudioStart, AudioPad, FeatLen(inp.audios[c.audio]), AudioEnd);
    case Image => RepeatShape(m, VisionStart, ImagePad, GridLen(inp.images[c.image], inp.merge), VisionEnd);
    case Video => RepeatShape(m, VisionStart, VideoPad, GridLen(inp.videos[c.video], inp.merge), VisionEnd);
    case AudioVideo(mix) => MixBoth(mix); MixedShape(m);
  }

  lemma GridSome(m: Media, inp: Inputs, c: Cursor)
    requires GoodMedia(m, inp, c)
    ensures m.Image? ==> GridLen(inp.images[c.image], inp.merge) >= 1
    ensures m.Video? || m.AudioVideo? ==> GridLen(inp.videos[c.video], inp.merge) >= 1
  {
    hide GridLen, GoodGrid;
    if m.Image? { GridWidth(inp.images[c.image], inp.merge); }
    if m.Video? || m.AudioVideo? { GridWidth(inp.videos[c.video], inp.merge); }
  }

  lemma {:induction false} MixBoth(mix: seq<bool>)
    ensures Trues(mix) >= 1 ==> true in mix
    ensures Trues(mix) < |mix| ==> false in mix
  {
    if mix != [] { MixBoth(mix[1..]); }
  }

  lemma FirstOf(mix: seq<bool>, x: bool) returns (i: nat)
    requires x in mix
    ensures i < |mix| && mix[i] == x
  {
    i :| 0 <= i < |mix| && mix[i] == x;
  }

  /** The counts of a token list agree with the numbers of segments of the items. */
  ghost predicate Counted(tokens: seq<Token>, items: seq<Item>, useAudioInVideo: bool) {
    CountAfterStart(tokens, ImagePad) == Images(items)
    && CountAfterStart(tokens, VideoMark(useAudioInVideo)) == Videos(items)
    && Count(tokens, AudioStart) == Audios(items)
  }

  lemma CountedStep(text: seq<Token>, m: Media, inp: Inputs, c: Cursor, rest: seq<Token>, items: seq<Item>)
    requires Plain(text) && GoodMedia(m, inp, c)
    requires items != [] && items[0].media == m && Counted(rest, items[1..], inp.useAudioInVideo)
    ensures Counted(text + (MediaTokens(m, inp, c) + rest), items, inp.useAudioInVideo)
  {
    hide GoodMedia, MediaTokens, Count, CountAfterStart, Images, Videos, Audios;
    var s := MediaTokens(m, inp, c);
    MediaShape(m, inp, c);
    ModeFits(m, inp, c);
    CountsStep(items);
    CountItem(text, s, rest, AudioStart, if m.AudioVideo? then 1 else 0);
    CountAfterItem(text, s, rest, ImagePad);
    CountAfterItem(text, s, rest, VideoMark(inp.useAudioInVideo));
  }

  /** The three counts the loop starts from are the numbers of segments of the row. */
  lemma {:induction false} RowCounts(items: seq<Item>, tail: seq<Token>, inp: Inputs, c: Cursor)
    requires GoodItems(items, inp, c) && Plain(tail)
    ensures Counted(RowTokens(items, tail, inp, c), items, inp.useAudioInVideo)
  {
    if items == [] {
      CountNone(tail, AudioStart);
      CountAfterNone(tail, ImagePad);
      CountAfterNone(tail, VideoMark(inp.useAudioInVideo));
    } else {
      hide GoodMedia, MediaTokens, Counted;
      var m := items[0].media;
      RowCounts(items[1..], tail, inp, Next(m, c));
      CountedStep(items[0].text, m, inp, c, RowTokens(items[1..], tail, inp, Next(m, c)), items);
    }
  }

  lemma ModeFits(m: Media, inp: Inputs, c: Cursor)
    requires GoodMedia(m, inp, c)
    ensures m.Video? ==> !inp.useAudioInVideo
    ensures m.AudioVideo? ==> inp.useAudioInVideo
  {
  }

  lemma CountFront(s: seq<Token>, x: Token, at: nat)
    requires at < |s| && forall i | 0 <= i < |s| :: i != at ==> s[i] != x
    ensures Count(s, x) == if s[at] == x then 1 else 0
  {
    assert s == s[..at] + ([s[at]] + s[at + 1..]);
    CountConcat(s[..at], [s[at]] + s[at + 1..], x);
    CountConcat([s[at]], s[at + 1..], x);
    CountNone(s[..at], x);
    CountNone(s[at + 1..], x);
    assert [s[at]][..0] == [];
  }

  lemma CountItem(text: seq<Token>, s: seq<Token>, rest: seq<Token>, x: Token, at: nat)
    requires (forall i | 0 <= i < |text| :: text[i] != x) && at < |s|
    requires forall i | 0 <= i < |s| :: i != at ==> s[i] != x
    ensures Count(text + (s + rest), x) == (if s[at] == x then 1 else 0) + Count(rest, x)
  {
    CountConcat(text, s + rest, x);
    CountConcat(s, rest, x);
    CountNone(text, x);
    CountFront(s, x, at);
  }

  lemma CountAfterItem(text: seq<Token>, s: seq<Token>, rest: seq<Token>, x: Token)
    requires Plain(text) && |s| >= 3 && s[|s| - 1] != VisionStart
    requires forall i | 1 <= i < |s| :: s[i] != VisionStart
    ensures CountAfterStart(text + (s + rest), x)
         == (if s[0] == VisionStart && s[1] == x then 1 else 0) + CountAfterStart(rest, x)
  {
    CountAfterConcat(text, s + rest, x);
    CountAfterConcat(s, rest, x);
    CountAfterNone(text, x);
    assert s == s[..2] + s[2..];
    CountAfterConcat(s[..2], s[2..], x);
    CountAfterNone(s[2..], x);
    assert s[..2][..1] == [s[0]];
  }

  lemma {:induction false} SegmentCount(items: seq<Item>, inp: Inputs, c: Cursor)
    requires GoodItems(items, inp, c)
    ensures |items| == if inp.useAudioInVideo then Images(items) + Audios(items)
                       else Images(items) + Videos(items) + Audios(items)
  {
    if items != [] {
      SegmentCount(items[1..], inp, Next(items[0].media, c));
      ModeFits(items[0].media, inp, c);
    }
  }

  /** As long as a kind remains, its marker and its token occur further on. */
  lemma {:induction false} Present(items: seq<Item>, tail: seq<Token>, inp: Inputs, c: Cursor)
    requires GoodItems(items, inp, c)
    ensures var tokens := RowTokens(items, tail, inp, c);
      && (Images(items) + Videos(items) > 0 ==> VisionStart in tokens && (ImagePad in tokens || VideoPad in tokens))
      && (Audios(items) > 0 ==> AudioStart in tokens && AudioPad in tokens)
  {
    if items != [] {
      hide GoodMedia, MediaTokens;
      var m := items[0].media;
      Present(items[1..], tail, inp, Next(m, c));
      MediaShape(m, inp, c);
      var s := MediaTokens(m, inp, c);
      assert s[0] in s && s[1] in s;
    }
  }

  /** Where the next segment lies in the rest of the row. */
  lemma NextSegment(items: seq<Item>, tail: seq<Token>, inp: Inputs, c: Cursor, tokens: seq<Token>, st: nat)
    requires items != [] && GoodItems(items, inp, c)
    requires st <= |tokens| && tokens[st..] == RowTokens(items, tail, inp, c)
    ensures var s := MediaTokens(items[0].media, inp, c); var p := st + |items[0].text|;
      && (forall j | st <= j < p :: tokens[j].Word?)
      && p + |s| <= |tokens| && (forall i | 0 <= i < |s| :: tokens[p + i] == s[i])
      && tokens[p + |s|..] == RowTokens(items[1..], tail, inp, Next(items[0].media, c))
  {
    hide GoodMedia, MediaTokens;
    var text, s := items[0].text, MediaTokens(items[0].media, inp, c);
    var rest := RowTokens(items[1..], tail, inp, Next(items[0].media, c));
    var p := st + |text|;
    assert tokens[st..] == text + (s + rest);
    forall j | st <= j < p ensures tokens[j].Word? { assert tokens[j] == tokens[st..][j - st] == text[j - st]; }
    forall i | 0 <= i < |s| ensures tokens[p + i] == s[i] { assert tokens[p + i] == tokens[st..][|text| + i]; }
    assert tokens[p + |s|..] == tokens[st..][|text| + |s|..];
  }

  /** The merge loop: the earlier of the two heads goes first, a video head on a tie. */
  method AppendMerged(video: Block, audio: Block, before: seq<Block>) returns (blocks: seq<Block>)
    ensures blocks == before + MergeBlocks(video, audio, 0, 0)
  {
    var v, a := 0, 0;
    blocks := before;
    while v < |video| && a < |audio|
      invariant v <= |video| && a <= |audio|
      invariant blocks + MergeBlocks(video, audio, v, a) == before + MergeBlocks(video, audio, 0, 0)
      decreases |video| - v + |audio| - a
    {
      ghost var was, whole := blocks, MergeBlocks(video, audio, v, a);
      if video[v].t <= audio[a].t {
        blocks := blocks + [video[v..v + 1]];
        v := v + 1;
      } else {
        blocks := blocks + [audio[a..a + 1]];
        a := a + 1;
      }
      assert blocks + MergeBlocks(video, audio, v, a) == was + whole;
    }
    if v < |video| { blocks := blocks + [video[v..]]; }
    if a < |audio| { blocks := blocks + [audio[a..]]; }
  }

  /** The segment the loop reaches next: its kind is read off the two nearest markers. */
  predicate Reached(tokens: seq<Token>, at: nat, m: Media, vision: nat, audio: nat) {
    at + 1 < |tokens|
    && match m
       case Audio => audio == at && vision > at
       case Image => vision == at && audio > at + 1 && tokens[at + 1] == ImagePad
       case Video => vision == at && audio > at + 1 && tokens[at + 1] == VideoPad
       case AudioVideo(_) => vision == at && audio == at + 1 && tokens[at + 1] == AudioStart
  }

  /** The blocks one segment adds between the text and the closing markers, and the inputs it uses. */
  method AppendSegment(tokens: seq<Token>, cfg: Config, c0: Cursor, vision: nat, audio: nat,
                       before: seq<Block>, start: real, ghost m: Media)
    returns (blocks: seq<Block>, c: Cursor, width: nat)
    requires GoodMedia(m, cfg.inp, c0)
    requires Reached(tokens, if vision < audio then vision else audio, m, vision, audio)
    ensures blocks == before + MediaBlocks(m, cfg, c0, start)
    ensures c == Next(m, c0) && width == |MediaTokens(m, cfg.inp, c0)| - 2 * Edge(m)
  {
    hide FeatLen, GoodGrid, GridLen, GridBlock;
    var inp := cfg.inp;
    var at := if vision < audio then vision else audio;
    c, blocks, width := c0, before, 0;
    if at == audio {
      width := FeatLen(inp.audios[c0.audio]);
      blocks := blocks + [Line(width, start)];
      c := c.(audio := c0.audio + 1);
    } else if at == vision && tokens[vision + 1] == ImagePad {
      blocks := blocks + [GridBlock(inp.images[c0.image], inp.merge, cfg.perSecond, start)];
      width := GridLen(inp.images[c0.image], inp.merge);
      c := c.(image := c0.image + 1);
    } else if at == vision && tokens[vision + 1] == VideoPad {
      blocks := blocks + [VideoBlock(cfg, c0, start)];
      width := GridLen(inp.videos[c0.video], inp.merge);
      c := c.(video := c0.video + 1);
    } else if at == vision && vision + 1 == audio {
      var audioLen := FeatLen(inp.audios[c0.audio]);
      blocks := AppendMerged(VideoBlock(cfg, c0, start), Line(audioLen, start), blocks);
      width := audioLen + GridLen(inp.videos[c0.video], inp.merge);
      c := c.(audio := c0.audio + 1, video := c0.video + 1);
    }
  }

  /** What the loop knows between segments: the unread tokens are the row of the remaining items, and the
      positions assigned so far are as many as the tokens read. */
  ghost predicate Between(tokens: seq<Token>, st: nat, items: seq<Item>, tail: seq<Token>, cfg: Config, c: Cursor,
                          blocks: seq<Block>)
  {
    st <= |tokens| && GoodItems(items, cfg.inp, c)
    && tokens[st..] == RowTokens(items, tail, cfg.inp, c) && |Positions(blocks)| == st
  }

  /** One pass of the loop's head: from the markers remaining to the segment reached. */
  lemma MarkersReach(tokens: seq<Token>, st: nat, items: seq<Item>, tail: seq<Token>, cfg: Config, c: Cursor,
                     blocks: seq<Block>, vision: nat, audio: nat)
    requires items != [] && Between(tokens, st, items, tail, cfg, c, blocks)
    requires Images(items) + Videos(items) > 0
      ==> VisionStart in tokens[st..] && vision == Index(tokens, VisionStart, st)
    requires Images(items) + Videos(items) == 0 ==> vision == |tokens| + 1
    requires Audios(items) > 0 ==> AudioStart in tokens[st..] && audio == Index(tokens, AudioStart, st)
    requires Audios(items) == 0 ==> audio == |tokens| + 1
    ensures var at := st + |items[0].text|;
      && at == (if vision < audio then vision else audio) && Reached(tokens, at, items[0].media, vision, audio)
  {
    hide GoodMedia, MediaTokens, Positions, RowTokens;
    var m := items[0].media;
    MediaShape(m, cfg.inp, c);
    NextSegment(items, tail, cfg.inp, c, tokens, st);
    var s := MediaTokens(m, cfg.inp, c);
    var at := st + |items[0].text|;
    assert tokens[at + 0] == s[0] && tokens[at + 1] == s[1];
    if !m.Audio? && Audios(items) > 0 { assert tokens[at + 2] == s[2]; }
  }

  lemma InSuffix(tokens: seq<Token>, st: nat)
    requires st <= |tokens|
    ensures forall x | x in tokens[st..] :: x in tokens
  {
  }

  lemma WalkStep(items: seq<Item>, tail: nat, cfg: Config, c: Cursor, blocks: seq<Block>)
    requires items != [] && GoodItems(items, cfg.inp, c)
    ensures Walk(items, tail, cfg, c, blocks)
         == Walk(items[1..], tail, cfg, Next(items[0].media, c), AddItem(items[0], cfg, c, blocks))
    ensures CursorAfter(items, c) == CursorAfter(items[1..], Next(items[0].media, c))
  {
  }

  lemma CountsStep(items: seq<Item>)
    requires items != []
    ensures Images(items) == Images(items[1..]) + if items[0].media.Image? then 1 else 0
    ensures Videos(items) == Videos(items[1..]) + if items[0].media.Video? || items[0].media.AudioVideo? then 1 else 0
    ensures Audios(items) == Audios(items[1..]) + if items[0].media.Audio? || items[0].media.AudioVideo? then 1 else 0
  {
  }

  /** Reading one segment leads from one pause of the loop to the next. */
  lemma BetweenNext(tokens: seq<Token>, st: nat, items: seq<Item>, tail: seq<Token>, cfg: Config, c: Cursor,
                    blocks: seq<Block>)
    requires items != [] && Between(tokens, st, items, tail, cfg, c, blocks)
    ensures Between(tokens, st + |items[0].text| + |MediaTokens(items[0].media, cfg.inp, c)|, items[1..], tail, cfg,
                    Next(items[0].media, c), AddItem(items[0], cfg, c, blocks))
  {
    hide GoodMedia, MediaTokens, Positions, AddItem;
    NextSegment(items, tail, cfg.inp, c, tokens, st);
    AddItemWidth(items[0], cfg, c, blocks);
  }

  /** The next marker of either kind, or a position past the end when none is expected. */
  method {:induction false} NextMarkers(tokens: seq<Token>, st: nat, images: nat, videos: nat, audios: nat,
                     cfg: Config, ghost c: Cursor, ghost items: seq<Item>, ghost tail: seq<Token>,
                     ghost blocks: seq<Block>)
    returns (vision: nat, audio: nat)
    requires items != [] && Between(tokens, st, items, tail, cfg, c, blocks)
    requires images == Images(items) && videos == Videos(items) && audios == Audios(items)
    ensures var at := st + |items[0].text|;
      && at == (if vision < audio then vision else audio) && Reached(tokens, at, items[0].media, vision, audio)
  {
    hide GoodMedia, Positions, RowTokens, MediaTokens, Reached;
    Present(items, tail, cfg.inp, c);
    InSuffix(tokens, st);
    vision := |tokens| + 1;
    if (ImagePad in tokens || VideoPad in tokens) && (videos > 0 || images > 0) {
      vision := Index(tokens, VisionStart, st);
    }
    audio := |tokens| + 1;
    if AudioPad in tokens && audios > 0 {
      audio := Index(tokens, AudioStart, st);
    }
    MarkersReach(tokens, st, items, tail, cfg, c, blocks, vision, audio);
  }

  /** One pass of the loop body: text, opening markers, segment, closing markers. */
  method AppendItem(tokens: seq<Token>, cfg: Config, c0: Cursor, st: nat, vision: nat, audio: nat,
                    before: seq<Block>, ghost it: Item)
    returns (blocks: seq<Block>, c: Cursor, next: nat)
    requires GoodMedia(it.media, cfg.inp, c0)
    requires st + |it.text| == (if vision < audio then vision else audio)
    requires Reached(tokens, st + |it.text|, it.media, vision, audio)
    ensures blocks == AddItem(it, cfg, c0, before)
    ensures c == Next(it.media, c0) && next == st + |it.text| + |MediaTokens(it.media, cfg.inp, c0)|
  {
    hide GoodMedia, NextStart, MediaTokens, MediaBlocks;
    var at := if vision < audio then vision else audio;
    var textLen := at - st;
    var start := NextStart(before);
    blocks := before;
    if textLen != 0 {
      blocks := blocks + [Line(textLen, start)];
      start := start + textLen as real;
    }
    var edge := if at == vision && vision + 1 == audio then 2 else 1;
    blocks := blocks + [Line(edge, start)];
    start := start + edge as real;
    var width;
    blocks, c, width := AppendSegment(tokens, cfg, c0, vision, audio, blocks, start, it.media);
    next := st + textLen + edge + width + edge;
    blocks := blocks + [Line(edge, NextStart(blocks))];
  }

  lemma NoneLeft(c: Cursor)
    ensures CursorAfter([], c) == c
  {
  }

  lemma BetweenStart(tokens: seq<Token>, items: seq<Item>, tail: seq<Token>, cfg: Config, c: Cursor)
    requires GoodItems(items, cfg.inp, c) && tokens == RowTokens(items, tail, cfg.inp, c)
    ensures Between(tokens, 0, items, tail, cfg, c, [])
  {
    assert tokens[0..] == tokens;
  }

  lemma BetweenEnd(tokens: seq<Token>, st: nat, tail: seq<Token>, cfg: Config, c: Cursor, blocks: seq<Block>)
    requires Between(tokens, st, [], tail, cfg, c, blocks)
    ensures st + |tail| == |tokens| && Walk([], |tail|, cfg, c, blocks) == WithText(|tail|, blocks)
    ensures |Positions(WithText(|tail|, blocks))| == |tokens|
  {
    assert tokens[st..] == tail;
    TextWidth(|tail|, blocks);
  }

  /** The positions of a row, and the inputs left for the next row. */
  method RopeRow(tokens: seq<Token>, cfg: Config, c0: Cursor, ghost items: seq<Item>, ghost tail: seq<Token>)
    returns (blocks: seq<Block>, c: Cursor)
    requires GoodItems(items, cfg.inp, c0) && Plain(tail) && tokens == RowTokens(items, tail, cfg.inp, c0)
    ensures blocks == Walk(items, |tail|, cfg, c0, [])
    ensures cfg.perSecond >= 0.0 ==> Laid(Positions(blocks), 0.0, items, |tail|, cfg, c0)
    ensures c == CursorAfter(items, c0)
    ensures |Positions(blocks)| == |tokens|
  {
    hide GoodMedia, Positions, AddItem, Walk, RowTokens, NextStart, MediaTokens, MediaBlocks, Reached, Between, Laid;
    hide Images, Videos, Audios, Count, CountAfterStart, CursorAfter;
    if cfg.perSecond >= 0.0 { RowIsLaid(items, |tail|, cfg, c0); }
    var inp := cfg.inp;
    blocks, c := [], c0;
    var st: nat := 0;
    RowCounts(items, tail, inp, c0);
    SegmentCount(items, inp, c0);
    BetweenStart(tokens, items, tail, cfg, c0);
    var images := CountAfterStart(tokens, ImagePad);
    var videos := CountAfterStart(tokens, if inp.useAudioInVideo then AudioStart else VideoPad);
    var audios := Count(tokens, AudioStart);
    var segments := if inp.useAudioInVideo then images + audios else images + videos + audios;
    ghost var rest := items;
    for k := 0 to segments
      invariant |rest| == segments - k && GoodItems(rest, inp, c)
      invariant Between(tokens, st, rest, tail, cfg, c, blocks)
      invariant images == Images(rest) && videos == Videos(rest) && audios == Audios(rest)
      invariant Walk(rest, |tail|, cfg, c, blocks) == Walk(items, |tail|, cfg, c0, [])
      invariant CursorAfter(rest, c) == CursorAfter(items, c0)
    {
      var vision, audio := NextMarkers(tokens, st, images, videos, audios, cfg, c, rest, tail, blocks);
      BetweenNext(tokens, st, rest, tail, cfg, c, blocks);
      WalkStep(rest, |tail|, cfg, c, blocks);
      CountsStep(rest);
      var was := c;
      blocks, c, st := AppendItem(tokens, cfg, c, st, vision, audio, blocks, rest[0]);
      // Whatever the segment consumed is no longer remaining.
      if c.image > was.image { images := images - 1; }
      if c.video > was.video { videos := videos - 1; }
      if c.audio > was.audio { audios := audios - 1; }
      rest := rest[1..];
    }
    BetweenEnd(tokens, st, tail, cfg, c, blocks);
    if st < |tokens| {
      blocks := blocks + [Line(|tokens| - st, NextStart(blocks))];
    }
    NoneLeft(c);
  }
}
