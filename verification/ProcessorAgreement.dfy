/** The processor against the position index and the audio encoder: same order, same counts. */
module ProcessorAgreement {
  import opened Sequences
  import opened Wrappers
  import opened AudioLengths
  import opened AudioPacking
  import opened MediaRow
  import opened RopeIndex
  import opened RopeLoop
  import opened RopeOrder
  import opened RopePoints
  import opened RopeDelta
  import P = Processor

  // ---- The whole batch ----

  /** A sample of the batch as parts and closing text. */
  datatype Sample = Sample(parts: seq<P.Part>, tail: seq<Token>)

  /** Every sample finds its inputs where the samples before it stopped. */
  predicate Served(samples: seq<Sample>, cfg: Config, c: Cursor) {
    samples == []
    || (P.AllSupplied(samples[0].parts, cfg, c) && P.AllWrapped(samples[0].parts) && Plain(samples[0].tail)
        && Served(samples[1..], cfg, CursorAfter(P.ItemsOf(samples[0].parts, cfg, c), c)))
  }

  function Shapes(samples: seq<Sample>, cfg: Config, c: Cursor): (r: seq<Shape>)
    requires Served(samples, cfg, c)
    ensures |r| == |samples|
  {
    if samples == [] then []
    else
      var items := P.ItemsOf(samples[0].parts, cfg, c);
      [Shape(items, samples[0].tail)] + Shapes(samples[1..], cfg, CursorAfter(items, c))
  }

  /** The rows of a batch, one shape after another. */
  predicate GoodShapes(shapes: seq<Shape>, inp: Inputs, c: Cursor) {
    shapes == []
    || (GoodItems(shapes[0].items, inp, c) && GoodShapes(shapes[1..], inp, CursorAfter(shapes[0].items, c)))
  }

  function Rows(shapes: seq<Shape>, inp: Inputs, c: Cursor): (r: seq<seq<Token>>)
    requires GoodShapes(shapes, inp, c)
    ensures |r| == |shapes|
  {
    if shapes == [] then []
    else
      var row := RowTokens(shapes[0].items, shapes[0].tail, inp, c);
      [row] + Rows(shapes[1..], inp, CursorAfter(shapes[0].items, c))
  }

  lemma {:induction false} ShapesAreGood(samples: seq<Sample>, cfg: Config, c: Cursor)
    requires Served(samples, cfg, c)
    ensures GoodShapes(Shapes(samples, cfg, c), cfg.inp, c)
  {
    if samples != [] {
      var items := P.ItemsOf(samples[0].parts, cfg, c);
      P.ItemsAreGood(samples[0].parts, cfg, c);
      ShapesAreGood(samples[1..], cfg, CursorAfter(items, c));
    }
  }

  /** The rows the batch becomes. */
  function Written(samples: seq<Sample>, cfg: Config, c: Cursor): seq<seq<Token>>
    requires Served(samples, cfg, c)
  {
    ShapesAreGood(samples, cfg, c);
    Rows(Shapes(samples, cfg, c), cfg.inp, c)
  }

  lemma NothingWritten(cfg: Config, c: Cursor)
    ensures Written([], cfg, c) == []
  {
  }

  lemma WrittenStep(samples: seq<Sample>, cfg: Config, c: Cursor)
    requires samples != [] && Served(samples, cfg, c)
    ensures P.AllSupplied(samples[0].parts, cfg, c) && P.Quiet(samples[0].tail)
    ensures var items := P.ItemsOf(samples[0].parts, cfg, c); var next := CursorAfter(items, c);
      && Served(samples[1..], cfg, next) && GoodItems(items, cfg.inp, c)
      && Written(samples, cfg, c)
         == [P.Whole(samples[0].parts, samples[0].tail, cfg, c)] + Written(samples[1..], cfg, next)
  {
    hide GoodItems, RowTokens, P.AllSupplied, P.ItemsOf, CursorAfter, P.Whole;
    P.WholeIsRow(samples[0].parts, samples[0].tail, cfg, c);
    var items := P.ItemsOf(samples[0].parts, cfg, c);
    P.ItemsAreGood(samples[0].parts, cfg, c);
    assert Shapes(samples, cfg, c)[1..] == Shapes(samples[1..], cfg, CursorAfter(items, c));
  }

  /** All samples of the batch, drawing on shared iterators. */
  method ExpandBatch(texts: seq<seq<Token>>, cfg: Config, ghost samples: seq<Sample>) returns (outs: seq<seq<Token>>)
    requires |texts| == |samples| &&
      forall i | 0 <= i < |texts| :: texts[i] == P.Draft(samples[i].parts, samples[i].tail)
    requires Served(samples, cfg, Cursor(0, 0, 0))
    ensures outs == Written(samples, cfg, Cursor(0, 0, 0))
  {
    hide Served, Written, GoodItems, RowTokens, P.AllSupplied, P.ItemsOf, P.Draft, P.Whole;
    outs := [];
    var c := Cursor(0, 0, 0);
    ghost var whole := Written(samples, cfg, c);
    assert samples[0..] == samples;
    for i := 0 to |texts|
      invariant Served(samples[i..], cfg, c) && outs + Written(samples[i..], cfg, c) == whole
    {
      WrittenStep(samples[i..], cfg, c);
      assert samples[i..][1..] == samples[i + 1..];
      var out;
      ghost var was, rest := outs, Written(samples[i..], cfg, c);
      out, c := P.ExpandSample(texts[i], cfg, c, samples[i].parts, samples[i].tail);
      outs := outs + [out];
      assert outs + Written(samples[i + 1..], cfg, c) == was + rest;
    }
    NothingWritten(cfg, c);
    assert samples[|texts|..] == [];
  }

  // ---- What the processor writes, the position index accepts ----

  /** Where row `i` takes up the inputs, when the first row starts at `c`. */
  function CursorFrom(shapes: seq<Shape>, i: nat, c: Cursor): Cursor
    requires i <= |shapes|
  {
    if i == 0 then c else CursorAfter(shapes[i - 1].items, CursorFrom(shapes, i - 1, c))
  }

  lemma {:induction false} CursorFront(shapes: seq<Shape>, i: nat, c: Cursor)
    requires 0 < i <= |shapes|
    ensures CursorFrom(shapes, i, c) == CursorFrom(shapes[1..], i - 1, CursorAfter(shapes[0].items, c))
  {
    hide CursorAfter;
    if i > 1 { CursorFront(shapes, i - 1, c); }
  }

  lemma {:induction false} CursorAtStart(shapes: seq<Shape>, i: nat)
    requires i <= |shapes|
    ensures CursorAt(shapes, i) == CursorFrom(shapes, i, Cursor(0, 0, 0))
  {
    hide CursorAfter;
    if i > 0 { CursorAtStart(shapes, i - 1); }
  }

  lemma ShapesStep(samples: seq<Sample>, cfg: Config, c: Cursor)
    requires samples != [] && Served(samples, cfg, c)
    ensures P.AllSupplied(samples[0].parts, cfg, c) && Plain(samples[0].tail)
    ensures var items := P.ItemsOf(samples[0].parts, cfg, c); var next := CursorAfter(items, c);
      && Served(samples[1..], cfg, next) && GoodItems(items, cfg.inp, c)
      && Shapes(samples, cfg, c) == [Shape(items, samples[0].tail)] + Shapes(samples[1..], cfg, next)
      && Written(samples, cfg, c)
         == [RowTokens(items, samples[0].tail, cfg.inp, c)] + Written(samples[1..], cfg, next)
  {
    hide Written, GoodItems, RowTokens, P.AllSupplied, P.ItemsOf, CursorAfter, P.Whole;
    WrittenStep(samples, cfg, c);
    P.WholeIsRow(samples[0].parts, samples[0].tail, cfg, c);
  }

  /** Row `i` of the batch is the row of its shape, on the inputs the rows before it leave. */
  lemma {:induction false} WrittenRow(samples: seq<Sample>, cfg: Config, c: Cursor, i: nat)
    requires Served(samples, cfg, c) && i < |samples|
    ensures |Written(samples, cfg, c)| == |samples|
    ensures var shapes := Shapes(samples, cfg, c); var at := CursorFrom(shapes, i, c);
      && Plain(shapes[i].tail) && GoodItems(shapes[i].items, cfg.inp, at)
      && Written(samples, cfg, c)[i] == RowTokens(shapes[i].items, shapes[i].tail, cfg.inp, at)
  {
    hide Written, Shapes, Served, GoodItems, RowTokens, P.AllSupplied, P.ItemsOf, CursorAfter;
    ShapesStep(samples, cfg, c);
    var next := CursorAfter(P.ItemsOf(samples[0].parts, cfg, c), c);
    var shapes := Shapes(samples, cfg, c);
    WrittenSize(samples, cfg, c);
    if i > 0 {
      assert shapes[1..] == Shapes(samples[1..], cfg, next);
      CursorFront(shapes, i, c);
      WrittenRow(samples[1..], cfg, next, i - 1);
    }
  }

  lemma WrittenSize(samples: seq<Sample>, cfg: Config, c: Cursor)
    requires Served(samples, cfg, c)
    ensures |Written(samples, cfg, c)| == |samples|
  {
  }

  /** The rows the processor writes, padded anywhere, meet everything the position index asks of a batch. */
  lemma {:induction false} BatchIsReady(samples: seq<Sample>, cfg: Config, rows: seq<seq<Token>>, masks: seq<seq<bool>>)
    requires Served(samples, cfg, Cursor(0, 0, 0)) && |rows| == |masks| == |samples|
    requires var written := Written(samples, cfg, Cursor(0, 0, 0));
      |written| == |samples| && forall i | 0 <= i < |rows| ::
        |rows[i]| == |masks[i]| && written[i] != [] && Attended(rows[i], masks[i]) == written[i]
    ensures var shapes := Shapes(samples, cfg, Cursor(0, 0, 0));
      forall i | 0 <= i < |rows| :: WellFormed(rows[i], masks[i], shapes[i], cfg, CursorAt(shapes, i))
  {
    hide Written, Shapes, Served, GoodItems, RowTokens, CursorFrom, CursorAt;
    var shapes := Shapes(samples, cfg, Cursor(0, 0, 0));
    forall i | 0 <= i < |rows| ensures WellFormed(rows[i], masks[i], shapes[i], cfg, CursorAt(shapes, i)) {
      WrittenRow(samples, cfg, Cursor(0, 0, 0), i);
      CursorAtStart(shapes, i);
    }
  }

  // ---- The two interleaves ----

  /** The choices of the position index's merge. */
  function Modalities(video: seq<Pos>, audio: seq<Pos>, v: nat, a: nat): seq<bool>
    requires v <= |video| && a <= |audio|
    decreases |video| - v + |audio| - a
  {
    if v < |video| && a < |audio| then
      if video[v].t <= audio[a].t then [true] + Modalities(video, audio, v + 1, a)
      else [false] + Modalities(video, audio, v, a + 1)
    else Copies(true, |video| - v) + Copies(false, |audio| - a)
  }

  /** The processor's choices, made from times that start at zero, are the index's, whatever the offset. */
  lemma {:induction false} SameChoices(
      times: seq<real>, n: nat, video: seq<Pos>, audio: seq<Pos>, start: real, v: nat, a: nat)
    requires |video| == |times| && |audio| == n && v <= |video| && a <= n
    requires forall i | 0 <= i < |video| :: video[i].t == times[i] + start
    requires forall j | 0 <= j < n :: audio[j].t == start + j as real
    ensures Modalities(video, audio, v, a) == P.Interleaved(times, n, v, a)
    decreases |video| - v + n - a
  {
    if v < |video| && a < n {
      assert video[v].t <= audio[a].t <==> times[v] <= a as real;
      if times[v] <= a as real {
        SameChoices(times, n, video, audio, start, v + 1, a);
      } else {
        SameChoices(times, n, video, audio, start, v, a + 1);
      }
    }
  }

  lemma {:induction false} TruesAtMost(mix: seq<bool>)
    ensures Trues(mix) <= |mix|
  {
    if mix != [] { TruesAtMost(mix[1..]); }
  }

  /** The positions in slot order: video slots take the video positions in turn, audio slots the audio ones. */
  function Weave(mix: seq<bool>, video: seq<Pos>, audio: seq<Pos>, v: nat, a: nat): seq<Pos>
    requires v + Trues(mix) == |video| && a + |mix| - Trues(mix) == |audio|
  {
    if mix == [] then []
    else
      TruesAtMost(mix[1..]);
      if mix[0] then [video[v]] + Weave(mix[1..], video, audio, v + 1, a)
      else [audio[a]] + Weave(mix[1..], video, audio, v, a + 1)
  }

  lemma {:induction false} WeaveFill(video: seq<Pos>, audio: seq<Pos>, v: nat, a: nat)
    requires v <= |video| && a <= |audio| && (v == |video| || a == |audio|)
    ensures var mix := Copies(true, |video| - v) + Copies(false, |audio| - a);
      Trues(mix) == |video| - v && Weave(mix, video, audio, v, a) == video[v..] + audio[a..]
    decreases |video| - v + |audio| - a
  {
    var mix := Copies(true, |video| - v) + Copies(false, |audio| - a);
    P.TruesConcat(Copies(true, |video| - v), Copies(false, |audio| - a));
    P.TruesFill(true, |video| - v);
    P.TruesFill(false, |audio| - a);
    if v < |video| {
      WeaveFill(video, audio, v + 1, a);
      assert mix[1..] == Copies(true, |video| - (v + 1)) + Copies(false, |audio| - a);
    } else if a < |audio| {
      WeaveFill(video, audio, v, a + 1);
      assert mix[1..] == Copies(true, |video| - v) + Copies(false, |audio| - (a + 1));
    }
  }

  /** `s` lists the positions still to come, in the order `mix` chooses. */
  ghost predicate Woven(s: seq<Pos>, mix: seq<bool>, video: seq<Pos>, audio: seq<Pos>, v: nat, a: nat) {
    v + Trues(mix) == |video| && a + |mix| - Trues(mix) == |audio| && s == Weave(mix, video, audio, v, a)
  }

  lemma WovenVideo(s: seq<Pos>, mix: seq<bool>, video: seq<Pos>, audio: seq<Pos>, v: nat, a: nat)
    requires v < |video| && Woven(s, mix, video, audio, v + 1, a)
    ensures Woven([video[v]] + s, [true] + mix, video, audio, v, a)
  {
    assert ([true] + mix)[1..] == mix;
  }

  lemma WovenAudio(s: seq<Pos>, mix: seq<bool>, video: seq<Pos>, audio: seq<Pos>, v: nat, a: nat)
    requires a < |audio| && Woven(s, mix, video, audio, v, a + 1)
    ensures Woven([audio[a]] + s, [false] + mix, video, audio, v, a)
  {
    assert ([false] + mix)[1..] == mix;
    TruesAtMost(mix);
  }

  /** The merged block list holds the positions woven by its choices. */
  lemma {:induction false} MergeIsWeave(video: Block, audio: Block, v: nat, a: nat)
    requires v <= |video| && a <= |audio|
    ensures Woven(Positions(MergeBlocks(video, audio, v, a)), Modalities(video, audio, v, a), video, audio, v, a)
    decreases |video| - v + |audio| - a
  {
    hide Positions, Woven;
    if v < |video| && a < |audio| {
      if video[v].t <= audio[a].t {
        var rest := MergeBlocks(video, audio, v + 1, a);
        MergeIsWeave(video, audio, v + 1, a);
        WovenVideo(Positions(rest), Modalities(video, audio, v + 1, a), video, audio, v, a);
        ConsPositions(video, v, rest);
      } else {
        var rest := MergeBlocks(video, audio, v, a + 1);
        MergeIsWeave(video, audio, v, a + 1);
        WovenAudio(Positions(rest), Modalities(video, audio, v, a + 1), video, audio, v, a);
        ConsPositions(audio, a, rest);
      }
    } else {
      WovenRest(video, audio, v, a);
    }
  }

  lemma ConsPositions(b: Block, i: nat, rest: seq<Block>)
    requires i < |b|
    ensures Positions([b[i..i + 1]] + rest) == [b[i]] + Positions(rest)
  {
    hide Positions;
    PositionsConcat([b[i..i + 1]], rest);
    OnePosition(b[i..i + 1]);
  }

  lemma WovenRest(video: Block, audio: Block, v: nat, a: nat)
    requires v <= |video| && a <= |audio| && (v == |video| || a == |audio|)
    ensures Woven(Positions(MergeBlocks(video, audio, v, a)), Modalities(video, audio, v, a), video, audio, v, a)
  {
    hide Positions, MergeBlocks, Weave;
    WeaveFill(video, audio, v, a);
    MergeRest(video, audio, v, a);
  }

  lemma MergeRest(video: Block, audio: Block, v: nat, a: nat)
    requires v <= |video| && a <= |audio| && (v == |video| || a == |audio|)
    ensures Positions(MergeBlocks(video, audio, v, a)) == video[v..] + audio[a..]
  {
    if v < |video| {
      assert MergeBlocks(video, audio, v, a) == [video[v..]];
      OnePosition(video[v..]);
    } else if a < |audio| {
      assert MergeBlocks(video, audio, v, a) == [audio[a..]];
      OnePosition(audio[a..]);
    }
  }

  /** For any grid, rate and start, the position index gives every slot the processor made a video slot the next
      video position, every other slot the next audio position, and the merged times never decrease. */
  lemma {:induction false} InterleavesAgree(g: Grid, merge: nat, rate: real, n: nat, start: real)
    requires GoodGrid(g, merge) && rate >= 0.0 && n >= 1
    ensures var video: Block := GridBlock(g, merge, rate, start); var audio: Block := Line(n, start);
      var mix := P.Interleaved(P.GridTimes(g, merge, rate), n, 0, 0);
      var merged := Positions(MergeBlocks(video, audio, 0, 0));
      && Trues(mix) == |video| && |mix| == |video| + n
      && merged == Weave(mix, video, audio, 0, 0) && Rising(merged)
  {
    hide MergeBlocks, Positions, Weave, Modalities, P.Interleaved, VideoTimes, VisionBlock;
    var video: Block := GridBlock(g, merge, rate, start);
    var audio: Block := Line(n, start);
    var times := P.GridTimes(g, merge, rate);
    GridWidth(g, merge);
    forall i | 0 <= i < |video| ensures video[i].t == times[i] + start {
      VisionTimes(g.t, rate, g.h / merge, g.w / merge, start, (g.h / merge) * (g.w / merge), i);
    }
    SameChoices(times, n, video, audio, start, 0, 0);
    MergeIsWeave(video, audio, 0, 0);
    GridSpans(g, merge, rate, start);
    LineSpans(n, start);
    MergeRises(video, audio, 0, 0, start);
  }

  // ---- Placeholder counts ----

  lemma {:induction false} CountRepeat(t: Token, n: nat, x: Token)
    ensures Count(Copies(t, n), x) == if t == x then n else 0
  {
    if n > 0 {
      CountRepeat(t, n - 1, x);
      assert Copies(t, n) == [t] + Copies(t, n - 1);
      CountConcat([t], Copies(t, n - 1), x);
      assert [t][..0] == [];
    }
  }

  lemma {:induction false} CountMixed(mix: seq<bool>)
    ensures Count(Mixed(mix), AudioPad) + Trues(mix) == |mix|
  {
    if mix != [] {
      CountMixed(mix[1..]);
      var t := if mix[0] then VideoPad else AudioPad;
      CountConcat([t], Mixed(mix[1..]), AudioPad);
      assert [t][..0] == [];
    }
  }

  lemma CountWrapped(open: seq<Token>, body: seq<Token>, close: seq<Token>)
    requires (forall i | 0 <= i < |open| :: open[i] != AudioPad) &&
      (forall i | 0 <= i < |close| :: close[i] != AudioPad)
    ensures Count(open + body + close, AudioPad) == Count(body, AudioPad)
  {
    CountConcat(open + body, close, AudioPad);
    CountConcat(open, body, AudioPad);
    CountNone(open, AudioPad);
    CountNone(close, AudioPad);
  }

  /** How many encoder rows a segment's audio has. */
  function AudioRows(m: Media, inp: Inputs, c: Cursor): nat
    requires GoodMedia(m, inp, c)
  {
    if m.Audio? || m.AudioVideo? then FeatLen(inp.audios[c.audio]) else 0
  }

  lemma MediaPads(m: Media, inp: Inputs, c: Cursor)
    requires GoodMedia(m, inp, c)
    ensures Count(MediaTokens(m, inp, c), AudioPad) == AudioRows(m, inp, c)
  {
    hide FeatLen, GridLen, GoodGrid, Count;
    match m
    case Audio =>
      var n := FeatLen(inp.audios[c.audio]);
      CountRepeat(AudioPad, n, AudioPad);
      CountWrapped([AudioStart], Copies(AudioPad, n), [AudioEnd]);
    case Image =>
      var n := GridLen(inp.images[c.image], inp.merge);
      CountRepeat(ImagePad, n, AudioPad);
      CountWrapped([VisionStart], Copies(ImagePad, n), [VisionEnd]);
    case Video =>
      var n := GridLen(inp.videos[c.video], inp.merge);
      CountRepeat(VideoPad, n, AudioPad);
      CountWrapped([VisionStart], Copies(VideoPad, n), [VisionEnd]);
    case AudioVideo(mix) =>
      CountMixed(mix);
      CountWrapped([VisionStart, AudioStart], Mixed(mix), [AudioEnd, VisionEnd]);
  }

  /** The encoder rows of the audios from `from` up to `to`. */
  function RowsBetween(audios: seq<nat>, from: nat, to: nat): nat
    requires from <= to <= |audios|
    decreases |audios| - from
  {
    if from == to then 0 else FeatLen(audios[from]) + RowsBetween(audios, from + 1, to)
  }

  lemma NoRows(audios: seq<nat>, from: nat)
    requires from <= |audios|
    ensures RowsBetween(audios, from, from) == 0
  {
  }

  lemma {:induction false} RowsJoin(audios: seq<nat>, from: nat, mid: nat, to: nat)
    requires from <= mid <= to <= |audios|
    ensures RowsBetween(audios, from, to) == RowsBetween(audios, from, mid) + RowsBetween(audios, mid, to)
    decreases mid - from
  {
    if from < mid { RowsJoin(audios, from + 1, mid, to); }
  }

  lemma {:induction false} RowsAll(audios: seq<nat>, from: nat)
    requires from <= |audios|
    ensures RowsBetween(audios, from, |audios|) == SumFeat(audios[from..])
    decreases |audios| - from
  {
    if from < |audios| {
      RowsAll(audios, from + 1);
      assert audios[from..][1..] == audios[from + 1..];
    }
  }

  lemma MediaAudio(m: Media, inp: Inputs, c: Cursor)
    requires GoodMedia(m, inp, c)
    ensures c.audio <= Next(m, c).audio
    ensures c.audio <= |inp.audios| ==>
      (Next(m, c).audio <= |inp.audios|
       && AudioRows(m, inp, c) == RowsBetween(inp.audios, c.audio, Next(m, c).audio))
  {
    hide FeatLen;
    if m.Audio? || m.AudioVideo? {
      assert RowsBetween(inp.audios, c.audio + 1, c.audio + 1) == 0;
    }
  }

  /** A row holds one audio token for every encoder row of the audios it consumes. */
  lemma {:induction false} RowPads(items: seq<Item>, tail: seq<Token>, inp: Inputs, c: Cursor)
    requires GoodItems(items, inp, c) && Plain(tail) && c.audio <= |inp.audios|
    ensures c.audio <= CursorAfter(items, c).audio <= |inp.audios|
    ensures Count(RowTokens(items, tail, inp, c), AudioPad)
      == RowsBetween(inp.audios, c.audio, CursorAfter(items, c).audio)
  {
    hide GoodMedia, MediaTokens, Count, RowsBetween, AudioRows;
    if items == [] {
      CountNone(tail, AudioPad);
      NoRows(inp.audios, c.audio);
    } else {
      var m := items[0].media;
      var next := Next(m, c);
      var rest := RowTokens(items[1..], tail, inp, next);
      MediaAudio(m, inp, c);
      RowPads(items[1..], tail, inp, next);
      MediaPads(m, inp, c);
      CountConcat(items[0].text, MediaTokens(m, inp, c) + rest, AudioPad);
      CountConcat(MediaTokens(m, inp, c), rest, AudioPad);
      CountNone(items[0].text, AudioPad);
      RowsJoin(inp.audios, c.audio, next.audio, CursorAfter(items, c).audio);
    }
  }

  /** All tokens of the batch, row after row, as the embedding mask sees them. */
  function Batch(rows: seq<seq<Token>>): seq<Token> {
    if rows == [] then [] else rows[0] + Batch(rows[1..])
  }

  function FinalCursor(samples: seq<Sample>, cfg: Config, c: Cursor): Cursor
    requires Served(samples, cfg, c)
  {
    if samples == [] then c
    else FinalCursor(samples[1..], cfg, CursorAfter(P.ItemsOf(samples[0].parts, cfg, c), c))
  }

  lemma {:induction false} BatchPads(samples: seq<Sample>, cfg: Config, c: Cursor)
    requires Served(samples, cfg, c) && c.audio <= |cfg.inp.audios|
    ensures c.audio <= FinalCursor(samples, cfg, c).audio <= |cfg.inp.audios|
    ensures Count(Batch(Written(samples, cfg, c)), AudioPad)
         == RowsBetween(cfg.inp.audios, c.audio, FinalCursor(samples, cfg, c).audio)
  {
    var audios := cfg.inp.audios;
    if samples == [] {
      CountNone([], AudioPad);
      assert RowsBetween(audios, c.audio, c.audio) == 0;
    } else {
      hide GoodItems, RowTokens, Count, RowsBetween, CursorAfter, P.AllSupplied, P.ItemsOf, Written;
      var items := P.ItemsOf(samples[0].parts, cfg, c);
      var next := CursorAfter(items, c);
      WrittenStep(samples, cfg, c);
      var row := RowTokens(items, samples[0].tail, cfg.inp, c);
      var rest := Written(samples[1..], cfg, next);
      RowPads(items, samples[0].tail, cfg.inp, c);
      BatchPads(samples[1..], cfg, next);
      CountConcat(row, Batch(rest), AudioPad);
      assert ([row] + rest)[1..] == rest;
      RowsJoin(audios, c.audio, next.audio, FinalCursor(samples, cfg, c).audio);
    }
  }

  function AudioMask(tokens: seq<Token>): (r: seq<bool>)
    ensures |r| == |tokens|
  {
    seq(|tokens|, i requires 0 <= i < |tokens| => tokens[i] == AudioPad)
  }

  lemma {:induction false} MaskCounts(tokens: seq<Token>)
    ensures Slots(AudioMask(tokens)) == Count(tokens, AudioPad)
  {
    if tokens != [] {
      MaskCounts(tokens[..|tokens| - 1]);
      assert AudioMask(tokens)[..|tokens| - 1] == AudioMask(tokens[..|tokens| - 1]);
    }
  }

  /** When a batch uses all its audios, the audio tokens the processor wrote are as many as the rows the
      encoder returns, so the merge never raises and the k-th audio token receives the k-th row. */
  lemma {:induction false} PlaceholdersMatchRows<E>(
      samples: seq<Sample>, cfg: Config, grid: seq<seq<E>>, embeds: seq<E>, window: nat)
    requires Served(samples, cfg, Cursor(0, 0, 0)) && window > 0
    requires var lens := cfg.inp.audios;
      && lens != [] && (forall b | 0 <= b < |lens| :: lens[b] >= 1)
      && FinalCursor(samples, cfg, Cursor(0, 0, 0)).audio == |lens|
      && |grid| == |Chunks(lens, 100)| > 0
      && forall c | 0 <= c < |grid| :: |grid[c]| == Conv3(Max(Chunks(lens, 100)))
    requires |embeds| == |Batch(Written(samples, cfg, Cursor(0, 0, 0)))|
    ensures var mask := AudioMask(Batch(Written(samples, cfg, Cursor(0, 0, 0))));
      var chunks := Chunks(cfg.inp.audios, 100); var indices := ValidIndices(chunks, MaxFeat(chunks));
      && (forall i | 0 <= i < |indices| :: indices[i] < |Flat(grid)|)
      && |indices| == Slots(mask)
      && MergeAudioEmbeds(mask, embeds, Some(Select(Flat(grid), indices)))
         == Some(Scatter(mask, embeds, Select(Flat(grid), indices)))
  {
    hide Served, FinalCursor, Count, Batch, Written, RowsBetween, Chunks;
    var c := Cursor(0, 0, 0);
    var lens := cfg.inp.audios;
    BatchPads(samples, cfg, c);
    RowsAll(lens, 0);
    assert lens[0..] == lens;
    var tokens := Batch(Written(samples, cfg, c));
    MaskCounts(tokens);
    AudioLengthsAgree(lens, grid, AudioMask(tokens), embeds, window);
  }
}
