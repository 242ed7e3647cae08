/** From padded chunks to embedding slots: valid rows, attention windows and the ordered scatter. */
module AudioPacking {
  import opened Sequences
  import opened Wrappers
  import opened AudioLengths

  function MaxFeat(ns: seq<nat>): nat
    requires ns != []
  {
    if |ns| == 1 then FeatLen(ns[0]) else var m := MaxFeat(ns[1..]); if FeatLen(ns[0]) < m then m else FeatLen(ns[0])
  }

  /** Flat indices of the valid frames in a grid of `stride` columns per chunk. */
  function ValidIndices(chunks: seq<nat>, stride: nat): seq<nat> {
    if chunks == [] then []
    else
      var k := |chunks| - 1;
      ValidIndices(chunks[..k], stride) + Span(k * stride, FeatLen(chunks[k]))
  }

  function Span(base: nat, n: nat): (r: seq<nat>)
    ensures |r| == n && forall j | 0 <= j < n :: r[j] == base + j
  {
    seq(n, j requires 0 <= j < n => base + j)
  }

  /** One index per valid frame. */
  lemma {:induction false} ValidCount(chunks: seq<nat>, stride: nat)
    ensures |ValidIndices(chunks, stride)| == SumFeat(chunks)
  {
    hide FeatLen;
    if chunks != [] {
      ValidCount(chunks[..|chunks| - 1], stride);
      SumFeatSnoc(chunks);
    }
  }

  /** The index stride is the convolution length of the longest chunk, so it is the real row width. */
  lemma {:induction false} StrideIsWidth(ns: seq<nat>)
    requires ns != [] && forall i | 0 <= i < |ns| :: ns[i] <= 100
    ensures MaxFeat(ns) == Conv3(Max(ns))
  {
    hide FeatLen, Conv3;
    FeatIsConv(ns[0]);
    if |ns| > 1 {
      StrideIsWidth(ns[1..]);
      FeatIsConv(Max(ns[1..]));
      ConvMonotone(ns[0], Max(ns[1..]));
    }
  }

  lemma FeatIsConv(n: nat)
    requires n <= 100
    ensures FeatLen(n) == Conv3(n)
  {
    hide FeatLen, Conv3;
    ClosedForms(n);
    if n < 100 { assert n % 100 == n; }
  }

  lemma ConvMonotone(a: nat, b: nat)
    ensures a <= b ==> Conv3(a) <= Conv3(b)
    ensures a >= b ==> Conv3(a) >= Conv3(b)
  {
    ClosedForms(a);
    ClosedForms(b);
  }

  function Flat<T>(grid: seq<seq<T>>): seq<T> {
    if grid == [] then [] else Flat(grid[..|grid| - 1]) + grid[|grid| - 1]
  }

  function Select<T>(flat: seq<T>, indices: seq<nat>): seq<T>
    requires forall i | 0 <= i < |indices| :: indices[i] < |flat|
  {
    seq(|indices|, i requires 0 <= i < |indices| => flat[indices[i]])
  }

  /** The unpadded rows, chunk after chunk. */
  function Kept<T>(grid: seq<seq<T>>, chunks: seq<nat>): seq<T>
    requires |grid| == |chunks| && forall c | 0 <= c < |chunks| :: FeatLen(chunks[c]) <= |grid[c]|
  {
    if grid == [] then []
    else var k := |grid| - 1; Kept(grid[..k], chunks[..k]) + grid[k][..FeatLen(chunks[k])]
  }

  lemma {:induction false} FlatLength<T>(grid: seq<seq<T>>, t: nat)
    requires forall c | 0 <= c < |grid| :: |grid[c]| == t
    ensures |Flat(grid)| == |grid| * t
  {
    if grid != [] {
      var k := |grid| - 1;
      FlatLength(grid[..k], t);
      assert (k + 1) * t == k * t + t;
    }
  }

  lemma {:induction false} IndicesBelow(chunks: seq<nat>, stride: nat)
    requires forall c | 0 <= c < |chunks| :: FeatLen(chunks[c]) <= stride
    ensures forall i | 0 <= i < |ValidIndices(chunks, stride)| :: ValidIndices(chunks, stride)[i] < |chunks| * stride
  {
    hide FeatLen;
    if chunks != [] {
      var k := |chunks| - 1;
      IndicesBelow(chunks[..k], stride);
      assert (k + 1) * stride == k * stride + stride;
    }
  }

  /** Selecting the valid indices from the flattened grid yields every chunk's valid frames in order and
      no padding, when the index stride is the row width. */
  lemma {:induction false} SelectKeepsValid<T>(grid: seq<seq<T>>, chunks: seq<nat>, t: nat)
    requires |grid| == |chunks|
    requires forall c | 0 <= c < |chunks| :: |grid[c]| == t && FeatLen(chunks[c]) <= t
    ensures |Flat(grid)| == |chunks| * t
    ensures forall i | 0 <= i < |ValidIndices(chunks, t)| :: ValidIndices(chunks, t)[i] < |Flat(grid)|
    ensures Select(Flat(grid), ValidIndices(chunks, t)) == Kept(grid, chunks)
  {
    hide FeatLen;
    FlatLength(grid, t);
    IndicesBelow(chunks, t);
    if grid != [] {
      var k := |grid| - 1;
      SelectKeepsValid(grid[..k], chunks[..k], t);
      LastRowSelected(Flat(grid[..k]), grid[k], ValidIndices(chunks[..k], t), FeatLen(chunks[k]), k * t);
    }
  }

  /** The indices are those of the first frames of every chunk, as many as its output has, in ascending order. */
  lemma {:induction false} ValidIndicesAre(chunks: seq<nat>, stride: nat, x: nat)
    ensures x in ValidIndices(chunks, stride) <==>
      exists c: nat, i: nat :: c < |chunks| && i < FeatLen(chunks[c]) && x == Cell(c, i, stride)
  {
    hide FeatLen, Cell;
    if chunks != [] {
      var k := |chunks| - 1;
      ValidIndicesAre(chunks[..k], stride, x);
      CellIs(k, stride);
      var before, last := ValidIndices(chunks[..k], stride), Span(k * stride, FeatLen(chunks[k]));
      assert x in ValidIndices(chunks, stride) <==> x in before || x in last;
      if x in last {
        var i: nat :| i < |last| && last[i] == x;
        assert x == Cell(k, i, stride);
      }
      if c: nat, i: nat :| c < |chunks| && i < FeatLen(chunks[c]) && x == Cell(c, i, stride) {
        if c < k { assert chunks[..k][c] == chunks[c]; } else { assert last[i] == x; }
      }
    }
  }

  /** Frame `i` of chunk `c` in a flattened grid. */
  function Cell(c: nat, i: nat, stride: nat): nat {
    c * stride + i
  }

  lemma CellIs(c: nat, stride: nat)
    ensures forall i: nat :: Cell(c, i, stride) == c * stride + i
  {
  }

  lemma {:induction false} IndicesAscend(chunks: seq<nat>, stride: nat)
    requires forall c | 0 <= c < |chunks| :: FeatLen(chunks[c]) <= stride
    ensures forall i, j | 0 <= i < j < |ValidIndices(chunks, stride)| ::
      ValidIndices(chunks, stride)[i] < ValidIndices(chunks, stride)[j]
  {
    hide FeatLen;
    if chunks != [] {
      IndicesAscend(chunks[..|chunks| - 1], stride);
      IndicesBelow(chunks[..|chunks| - 1], stride);
    }
  }

  lemma {:induction false} FlatAt<T>(grid: seq<seq<T>>, t: nat, c: nat, i: nat)
    requires (forall d | 0 <= d < |grid| :: |grid[d]| == t) && c < |grid| && i < t
    ensures Cell(c, i, t) < |Flat(grid)| && Flat(grid)[Cell(c, i, t)] == grid[c][i]
  {
    var k := |grid| - 1;
    FlatLength(grid[..k], t);
    if c < k { FlatAt(grid[..k], t, c, i); }
  }

  lemma LastRowSelected<T>(flat: seq<T>, row: seq<T>, indices: seq<nat>, n: nat, base: nat)
    requires |flat| == base && n <= |row|
    requires forall i | 0 <= i < |indices| :: indices[i] < |flat|
    ensures Select(flat + row, indices + Span(base, n)) == Select(flat, indices) + row[..n]
  {
  }

  // ---- Attention windows ----

  function Cumsum(s: seq<nat>): (r: seq<nat>)
    ensures |r| == |s| && (s != [] ==> r[|s| - 1] == Sum(s))
  {
    if s == [] then []
    else
      var k := |s| - 1;
      assert s == s[..k] + [s[k]];
      SumConcat(s[..k], [s[k]]);
      Cumsum(s[..k]) + [Sum(s)]
  }

  lemma {:induction false} ChunksExpanded(n: nat, w: nat)
    requires w > 0
    ensures ChunksOf(n, w) == Copies(w, n / w) + if n % w != 0 then [n % w] else []
    decreases n
  {
    if n < w {
      DivUnique(n, w, 0, n);
    } else if n == w {
      DivUnique(n, w, 1, 0);
      assert Copies(w, 1) == [w];
    } else {
      var q, r := (n - w) / w, (n - w) % w;
      ChunksExpanded(n - w, w);
      OneMore(n, w, q, r);
      var tail := if r != 0 then [r] else [];
      assert Copies(w, q + 1) + tail == [w] + (Copies(w, q) + tail);
    }
  }

  lemma OneMore(n: nat, w: nat, q: nat, r: nat)
    requires 0 < w < n && q == (n - w) / w && r == (n - w) % w
    ensures n / w == q + 1 && n % w == r
  {
    assert w * (q + 1) == w * q + w;
    DivUnique(n, w, q + 1, r);
  }

  /** The window widths of all samples behind a leading zero. */
  method WindowWidths(aftercnn: seq<nat>, window: nat) returns (widths: seq<nat>)
    requires window > 0
    ensures widths == [0] + Chunks(aftercnn, window)
  {
    widths := [0];
    for b := 0 to |aftercnn|
      invariant widths == [0] + Chunks(aftercnn[..b], window)
    {
      ChunksExpanded(aftercnn[b], window);
      assert aftercnn[..b + 1][..b] == aftercnn[..b];
      hide ChunksOf;
      ghost var before := widths;
      widths := widths + Copies(window, aftercnn[b] / window);
      var remainder := aftercnn[b] % window;
      if remainder != 0 {
        widths := widths + [remainder];
      }
      assert widths == before + ChunksOf(aftercnn[b], window);
    }
    assert aftercnn[..|aftercnn|] == aftercnn;
  }

  /** Cumulative window boundaries for packed attention, sample after sample. */
  method AudioCuSeqlens(chunks: seq<nat>, lens: seq<nat>, nWindowInfer: nat, nWindow: nat) returns (cu: seq<nat>)
    requires chunks != [] && (forall i | 0 <= i < |chunks| :: chunks[i] >= 1)
    requires 0 < nWindow * 2 <= nWindowInfer
    ensures var window := MaxFeat(chunks) * (nWindowInfer / (nWindow * 2));
      window > 0 && cu == Cumsum([0] + Chunks(FeatOf(lens), window))
  {
    var ratio := nWindowInfer / (nWindow * 2);
    var window := MaxFeat(chunks) * ratio;
    WindowPositive(chunks, nWindowInfer, nWindow * 2);
    var widths := WindowWidths(FeatOf(lens), window);
    cu := Cumsum(widths);
  }

  function FeatOf(lens: seq<nat>): (r: seq<nat>)
    ensures Sum(r) == SumFeat(lens) && |r| == |lens|
  {
    if lens == [] then [] else [FeatLen(lens[0])] + FeatOf(lens[1..])
  }

  lemma WindowPositive(chunks: seq<nat>, infer: nat, w: nat)
    requires chunks != [] && (forall i | 0 <= i < |chunks| :: chunks[i] >= 1) && 0 < w <= infer
    ensures MaxFeat(chunks) * (infer / w) > 0
  {
    MaxFeatPositive(chunks);
    var q := infer / w;
    assert q >= 1 by {
      if q <= 0 { Scaled(w, q - 1); DivUnique(infer, w, q, infer % w); }
    }
    Scaled(q, MaxFeat(chunks));
    assert MaxFeat(chunks) * q == q * MaxFeat(chunks);
  }

  lemma {:induction false} MaxFeatPositive(chunks: seq<nat>)
    requires chunks != [] && forall i | 0 <= i < |chunks| :: chunks[i] >= 1
    ensures MaxFeat(chunks) >= 1
  {
    if |chunks| > 1 { MaxFeatPositive(chunks[1..]); }
  }

  lemma {:induction false} CumsumPrefix(s: seq<nat>, i: nat)
    requires i < |s|
    ensures Cumsum(s)[i] == Sum(s[..i + 1])
  {
    if i == |s| - 1 {
      assert s[..i + 1] == s;
    } else {
      CumsumPrefix(s[..|s| - 1], i);
      assert s[..|s| - 1][..i + 1] == s[..i + 1];
    }
  }

  lemma {:induction false} ChunksTotal(lens: seq<nat>, w: nat)
    requires w > 0
    ensures Sum(Chunks(lens, w)) == Sum(lens)
  {
    if lens != [] {
      hide ChunksOf, Sum;
      var k := |lens| - 1;
      ChunksTotal(lens[..k], w);
      ChunksTile(lens[k], w);
      SumConcat(Chunks(lens[..k], w), ChunksOf(lens[k], w));
      SumSnoc(lens);
    }
  }

  lemma SumSnoc(s: seq<nat>)
    requires s != []
    ensures Sum(s) == Sum(s[..|s| - 1]) + s[|s| - 1]
  {
    var k := |s| - 1;
    assert s == s[..k] + [s[k]];
    SumConcat(s[..k], [s[k]]);
    assert [s[k]][1..] == [];
  }

  lemma {:induction false} ChunksBounded(lens: seq<nat>, w: nat, i: nat)
    requires w > 0 && i < |Chunks(lens, w)|
    ensures 1 <= Chunks(lens, w)[i] <= w
  {
    hide ChunksOf;
    var k := |lens| - 1;
    if i < |Chunks(lens[..k], w)| { ChunksBounded(lens[..k], w, i); } else { ChunksTile(lens[k], w); }
  }

  lemma {:induction false} ChunksPrefix(lens: seq<nat>, b: nat, w: nat)
    requires w > 0 && b <= |lens|
    ensures |Chunks(lens[..b], w)| <= |Chunks(lens, w)|
    ensures Chunks(lens, w)[..|Chunks(lens[..b], w)|] == Chunks(lens[..b], w)
  {
    if b == |lens| {
      assert lens[..b] == lens;
    } else {
      ChunksPrefix(lens[..|lens| - 1], b, w);
      assert lens[..|lens| - 1][..b] == lens[..b];
    }
  }

  /** The boundaries start at 0, every step is one window of 1..`window` rows, every sample ends on a
      boundary so no window spans two samples, and the last boundary is the number of rows. */
  lemma BoundariesTile(outs: seq<nat>, window: nat)
    requires window > 0
    ensures var cu := Cumsum([0] + Chunks(outs, window));
      && cu[0] == 0 && cu[|cu| - 1] == Sum(outs)
      && (forall i | 0 < i < |cu| :: 1 <= cu[i] - cu[i - 1] <= window)
      && (forall b | 0 <= b <= |outs| :: Sum(outs[..b]) in cu)
  {
    hide Chunks, Cumsum;
    var widths := [0] + Chunks(outs, window);
    var cu := Cumsum(widths);
    ChunksTotal(outs, window);
    assert widths[1..] == Chunks(outs, window);
    CumsumPrefix(widths, 0);
    assert widths[..1] == [0] && Sum([0]) == 0;
    forall i | 0 < i < |cu| ensures 1 <= cu[i] - cu[i - 1] <= window {
      CumsumPrefix(widths, i);
      CumsumPrefix(widths, i - 1);
      assert widths[..i + 1] == widths[..i] + [widths[i]];
      SumConcat(widths[..i], [widths[i]]);
      ChunksBounded(outs, window, i - 1);
    }
    forall b | 0 <= b <= |outs| ensures Sum(outs[..b]) in cu {
      ChunksPrefix(outs, b, window);
      ChunksTotal(outs[..b], window);
      var k := |Chunks(outs[..b], window)|;
      CumsumPrefix(widths, k);
      assert widths[..k + 1] == [0] + Chunks(outs[..b], window);
      assert cu[k] == Sum(outs[..b]);
    }
  }

  // ---- The scatter into embedding slots ----

  function Slots(mask: seq<bool>): nat {
    if mask == [] then 0 else Slots(mask[..|mask| - 1]) + if mask[|mask| - 1] then 1 else 0
  }

  /** `masked_scatter`: slot positions take the rows in order, the others keep their embedding. */
  function Scatter<E>(mask: seq<bool>, embeds: seq<E>, rows: seq<E>): seq<E>
    requires |mask| == |embeds| && |rows| == Slots(mask)
  {
    if mask == [] then []
    else
      var k := |mask| - 1;
      if mask[k] then Scatter(mask[..k], embeds[..k], rows[..|rows| - 1]) + [rows[|rows| - 1]]
      else Scatter(mask[..k], embeds[..k], rows) + [embeds[k]]
  }

  /** None stands for the raised error: no slot at all, or a count that differs from the rows. */
  function MergeAudioEmbeds<E>(mask: seq<bool>, embeds: seq<E>, features: Option<seq<E>>): Option<seq<E>>
    requires |mask| == |embeds|
  {
    match features
    case None => Some(embeds)
    case Some(rows) =>
      if Slots(mask) == 0 || |rows| != Slots(mask) then None else Some(Scatter(mask, embeds, rows))
  }

  /** The k-th slot of the batch holds the k-th row, and every other position its own embedding. */
  lemma {:induction false} ScatterOrdered<E>(mask: seq<bool>, embeds: seq<E>, rows: seq<E>, i: nat)
    requires |mask| == |embeds| && |rows| == Slots(mask) && i < |mask|
    ensures |Scatter(mask, embeds, rows)| == |mask|
    ensures mask[i] ==> Slots(mask[..i]) < |rows|
    ensures Scatter(mask, embeds, rows)[i] == if mask[i] then rows[Slots(mask[..i])] else embeds[i]
  {
    var k := |mask| - 1;
    ScatterLength(mask[..k], embeds[..k], if mask[k] then rows[..|rows| - 1] else rows);
    if i < k {
      ScatterOrdered(mask[..k], embeds[..k], if mask[k] then rows[..|rows| - 1] else rows, i);
      assert mask[..k][..i] == mask[..i];
    }
  }

  lemma {:induction false} SlotsPositive(mask: seq<bool>)
    ensures Slots(mask) > 0 <==> true in mask
  {
    if mask != [] {
      SlotsPositive(mask[..|mask| - 1]);
      assert mask == mask[..|mask| - 1] + [mask[|mask| - 1]];
    }
  }

  /** Without audio features the embeddings stay; with them the merge raises exactly when the text has no slot or the
      rows are not as many as the slots, and otherwise every slot takes its row and nothing else changes. */
  lemma {:induction false} MergeMeans<E>(mask: seq<bool>, embeds: seq<E>, rows: seq<E>, i: nat)
    requires |mask| == |embeds| && i < |mask|
    ensures MergeAudioEmbeds(mask, embeds, None) == Some(embeds)
    ensures var merged := MergeAudioEmbeds(mask, embeds, Some(rows));
      && (merged == None <==> true !in mask || |rows| != Slots(mask))
      && (merged.Some? ==>
            && |merged.value| == |mask|
            && (mask[i] ==> Slots(mask[..i]) < |rows| && merged.value[i] == rows[Slots(mask[..i])])
            && (!mask[i] ==> merged.value[i] == embeds[i]))
  {
    hide Slots, Scatter;
    SlotsPositive(mask);
    if |rows| == Slots(mask) { ScatterOrdered(mask, embeds, rows, i); }
  }

  lemma {:induction false} ScatterLength<E>(mask: seq<bool>, embeds: seq<E>, rows: seq<E>)
    requires |mask| == |embeds| && |rows| == Slots(mask)
    ensures |Scatter(mask, embeds, rows)| == |mask|
  {
    if mask != [] {
      var k := |mask| - 1;
      ScatterLength(mask[..k], embeds[..k], if mask[k] then rows[..|rows| - 1] else rows);
    }
  }

  /** With a 100-frame window, everything that counts audio rows counts the same: valid indices, kept
      encoder rows, the last attention boundary and the placeholders of the text. The mismatch error
      of the merge cannot occur, and slot k receives encoder row k. */
  lemma {:induction false} AudioLengthsAgree<E>(
      lens: seq<nat>, grid: seq<seq<E>>, mask: seq<bool>, embeds: seq<E>, window: nat)
    requires lens != [] && (forall b | 0 <= b < |lens| :: lens[b] >= 1) && window > 0
    requires |grid| == |Chunks(lens, 100)| > 0
    requires forall c | 0 <= c < |grid| :: |grid[c]| == Conv3(Max(Chunks(lens, 100)))
    requires |mask| == |embeds| && Slots(mask) == SumFeat(lens)
    ensures var chunks := Chunks(lens, 100); var stride := MaxFeat(chunks); var indices := ValidIndices(chunks, stride);
      && stride == Conv3(Max(chunks))
      && (forall i | 0 <= i < |indices| :: indices[i] < |Flat(grid)|)
      && var rows := Select(Flat(grid), indices); var cu := Cumsum([0] + Chunks(FeatOf(lens), window));
      && |rows| == |indices| == Slots(mask) == cu[|cu| - 1] == SumFeat(lens)
      && (forall c | 0 <= c < |chunks| :: FeatLen(chunks[c]) <= |grid[c]|) && rows == Kept(grid, chunks)
      && MergeAudioEmbeds(mask, embeds, Some(rows)) == Some(Scatter(mask, embeds, rows))
  {
    var chunks := Chunks(lens, 100);
    forall i | 0 <= i < |chunks| ensures 1 <= chunks[i] <= 100 { ChunksBounded(lens, 100, i); }
    StrideIsWidth(chunks);
    var t := MaxFeat(chunks);
    FeatAtMost(chunks);
    SelectKeepsValid(grid, chunks, t);
    ValidCount(chunks, t);
    ChunksFeat(lens, 100);
    BoundariesTile(FeatOf(lens), window);
    SomeFeat(lens);
  }

  lemma {:induction false} FeatAtMost(chunks: seq<nat>)
    requires chunks != []
    ensures forall c | 0 <= c < |chunks| :: FeatLen(chunks[c]) <= MaxFeat(chunks)
  {
    hide FeatLen;
    if |chunks| > 1 { FeatAtMost(chunks[1..]); }
  }

  lemma SomeFeat(lens: seq<nat>)
    requires lens != [] && lens[0] >= 1
    ensures SumFeat(lens) >= 1
  {
  }
}
