/** Lengths through the vocoder's convolutions, and the chunked decoding loop. */
module Vocoder {
  import opened Wrappers
  import opened AudioLengths

  // ---- Single layers ----

  /** Exact division rounded up. */
  function CeilDiv(a: int, s: nat): int
    requires s > 0
  {
    -((-a) / s)
  }

  /** A causal convolution: left padding of the kernel less the stride, right padding to a whole number of frames. */
  function CausalLength(n: int, kernel: nat, dilation: nat, stride: nat): int
    requires stride > 0
  {
    var reach := (kernel - 1) * dilation + 1;
    var padding := reach - stride;
    var frames := CeilDiv(n - reach + padding, stride) + 1;
    var ideal := (frames - 1) * stride + (reach - padding);
    var extra := ideal - n;
    (n + padding + extra - reach) / stride + 1
  }

  /** Whatever the kernel and dilation, it yields one frame per stride, rounded up. */
  lemma {:induction false} CausalKeeps(n: nat, kernel: nat, dilation: nat, stride: nat)
    requires stride > 0
    ensures CausalLength(n, kernel, dilation, stride) == Ceil(n, stride)
  {
    var reach: int := (kernel - 1) * dilation + 1;
    var padding := reach - stride;
    var frames := CeilDiv(n - reach + padding, stride) + 1;
    assert n - reach + padding == n - stride;
    CeilDivIs(n, stride);
    var q := Ceil(n, stride);
    assert frames == q;
    assert n + padding + ((frames - 1) * stride + (reach - padding) - n) - reach == (q - 1) * stride;
    assert stride * (q - 1) == (q - 1) * stride;
    DivUnique((q - 1) * stride, stride, q - 1, 0);
  }

  lemma CeilDivIs(n: nat, s: nat)
    requires s > 0
    ensures CeilDiv(n - s, s) == Ceil(n, s) - 1
  {
    var q: int, rem := Ceil(n, s), (n + s - 1) % s;
    assert n + s - 1 == s * q + rem;
    assert s * (1 - q) == s - s * q;
    DivUnique(s - n, s, 1 - q, s - 1 - rem);
  }

  /** A transposed convolution trimmed by `kernel - stride` on both sides; an empty slice has length 0. */
  function TransLength(n: int, kernel: nat, stride: nat): (r: nat)
    requires kernel >= stride
  {
    var full := (n - 1) * stride + kernel;
    var trim := kernel - stride;
    if full - trim > trim then full - trim - trim else 0
  }

  /** Twice the stride as kernel: one frame too few. The stride itself: exactly as many. */
  lemma {:induction false} TransLengths(n: nat, stride: nat)
    requires n >= 1 && stride >= 1
    ensures TransLength(n, 2 * stride, stride) == (n - 1) * stride
    ensures TransLength(n, stride, stride) == n * stride
  {
    assert (n - 1) * stride == n * stride - stride;
    assert (n - 1) * stride >= 0;
  }

  // ---- The whole vocoder ----

  function Prod(xs: seq<nat>): nat {
    if xs == [] then 1 else xs[0] * Prod(xs[1..])
  }

  /** The sum of the suffix products: what the decoder blocks lose in total. */
  function Lost(rates: seq<nat>): nat {
    if rates == [] then 0 else Prod(rates) + Lost(rates[1..])
  }

  predicate AtLeast(xs: seq<nat>, m: nat) {
    forall i | 0 <= i < |xs| :: xs[i] >= m
  }

  /** The upsampling stages: a transposed convolution, then a length-keeping block. */
  function Upsampled(n: int, ratios: seq<nat>): int
    decreases |ratios|
  {
    if ratios == [] then n else Upsampled(Stage(n, ratios[0]), ratios[1..])
  }

  function Stage(n: int, factor: nat): int {
    CausalLength(TransLength(n, factor, factor), 7, 1, 1)
  }

  /** One decoder block: a transposed convolution and three residual units. */
  function Block(n: int, rate: nat): Option<int> {
    var m := TransLength(n, 2 * rate, rate);
    if m == 0 then None
    else Some(CausalLength(CausalLength(CausalLength(m, 7, 1, 1), 7, 3, 1), 7, 9, 1))
  }

  /** The decoder blocks; None when a residual unit receives nothing, which raises. */
  function Decoded(n: int, rates: seq<nat>): Option<int>
    decreases |rates|
  {
    if rates == [] then Some(n)
    else match Block(n, rates[0])
      case None => None
      case Some(m) => Decoded(m, rates[1..])
  }

  /** Samples produced for `n` codes. */
  function WavLength(n: nat, ratios: seq<nat>, rates: seq<nat>): Option<int> {
    match Decoded(CausalLength(Upsampled(n, ratios), 7, 1, 1), rates)
    case Some(m) => Some(CausalLength(m, 7, 1, 1))
    case None => None
  }

  lemma StrideOne(n: nat, kernel: nat, dilation: nat)
    ensures CausalLength(n, kernel, dilation, 1) == n
  {
    CausalKeeps(n, kernel, dilation, 1);
    DivUnique(n + 1 - 1, 1, n, 0);
  }

  lemma StageLength(n: nat, factor: nat)
    requires n >= 1 && factor >= 1
    ensures Stage(n, factor) == n * factor
  {
    hide CausalLength, TransLength;
    TransLengths(n, factor);
    StrideOne(n * factor, 7, 1);
  }

  lemma {:induction false} UpsampledIs(n: nat, ratios: seq<nat>)
    requires AtLeast(ratios, 1) && n >= 1
    ensures Upsampled(n, ratios) == n * Prod(ratios) && Prod(ratios) >= 1
    decreases |ratios|
  {
    hide Stage;
    if ratios != [] {
      var m := n * ratios[0];
      StageLength(n, ratios[0]);
      Positive(n, ratios[0]);
      UpsampledIs(m, ratios[1..]);
      Positive(ratios[0], Prod(ratios[1..]));
      Assoc(n, ratios[0], Prod(ratios[1..]));
    }
  }

  lemma Positive(a: nat, b: nat)
    requires a >= 1 && b >= 1
    ensures a * b >= 1
  {
  }

  lemma BlockLength(n: nat, rate: nat)
    requires n >= 1 && rate >= 1
    ensures (n - 1) * rate >= 0
    ensures Block(n, rate) == if n == 1 then None else Some((n - 1) * rate)
    ensures n >= 2 ==> (n - 1) * rate >= 1
  {
    hide CausalLength, TransLength;
    TransLengths(n, rate);
    if n == 1 {
      assert (n - 1) * rate == 0;
    } else {
      var m := (n - 1) * rate;
      Positive(n - 1, rate);
      StrideOne(m, 7, 1);
      StrideOne(m, 7, 3);
      StrideOne(m, 7, 9);
    }
  }

  /** The fewest frames that reach the end of the decoder blocks: each must still have two. */
  function Need(rates: seq<nat>): (r: nat)
    requires AtLeast(rates, 1)
    ensures r >= 1
  {
    if rates == [] then 1 else 1 + Ceil(Need(rates[1..]), rates[0])
  }

  lemma CeilCovers(m: nat, r: nat, k: nat)
    requires r >= 1
    ensures m * r >= k <==> m >= Ceil(k, r)
  {
    var q, rem := (k + r - 1) / r, (k + r - 1) % r;
    assert k + r - 1 == r * q + rem;
    var d: int := m - q;
    Scaled(r, d);
    assert r * d == m * r - r * q;
  }

  /** Without more frames than that a block is left with nothing; with them, all but the lost ones come out. */
  lemma {:induction false} DecodedIs(n: nat, rates: seq<nat>)
    requires n >= 1 && AtLeast(rates, 1)
    ensures Decoded(n, rates) == if n >= Need(rates) then Some(n * Prod(rates) - Lost(rates)) else None
    ensures n >= Need(rates) ==> n * Prod(rates) - Lost(rates) >= 1
    decreases |rates|
  {
    hide Block, Ceil;
    if rates != [] {
      var r, rest := rates[0], rates[1..];
      BlockLength(n, r);
      CeilCovers(n - 1, r, Need(rest));
      CeilCovers(0, r, Need(rest));
      if n >= 2 {
        DecodedIs((n - 1) * r, rest);
        Unfold(n, r, Prod(rest));
      }
    }
  }

  /** With decoder rates of at least 2, two frames are always enough. */
  lemma {:induction false} NeedTwo(rates: seq<nat>)
    requires AtLeast(rates, 2)
    ensures Need(rates) == if rates == [] then 1 else 2
  {
    if rates != [] {
      NeedTwo(rates[1..]);
      CeilOne(Need(rates[1..]), rates[0]);
    }
  }

  lemma Unfold(n: nat, r: nat, p: nat)
    requires n >= 1
    ensures (n - 1) * r * p == n * (r * p) - r * p
  {
    assert (n - 1) * r * p == (n - 1) * (r * p);
  }

  lemma Assoc(n: nat, p: nat, q: nat)
    ensures n * p * q == n * (p * q)
  {
  }

  /** Decoding is possible exactly with enough upsampled frames. Each code then gives the product of all factors in
      samples, and a run of codes loses the sum of the suffix products once. */
  lemma {:induction false} WavIs(n: nat, ratios: seq<nat>, rates: seq<nat>)
    requires AtLeast(ratios, 1) && AtLeast(rates, 1) && n >= 1
    ensures WavLength(n, ratios, rates)
      == if n * Prod(ratios) >= Need(rates) then Some(n * (Prod(ratios) * Prod(rates)) - Lost(rates)) else None
  {
    hide CausalLength, Decoded, Upsampled, Prod, Lost, Need;
    UpsampledIs(n, ratios);
    Positive(n, Prod(ratios));
    var m := n * Prod(ratios);
    StrideOne(m, 7, 1);
    DecodedIs(m, rates);
    if m >= Need(rates) {
      StrideOne(m * Prod(rates) - Lost(rates), 7, 1);
      Assoc(n, Prod(ratios), Prod(rates));
    }
  }

  /** The default configuration: 1920 samples per code, 555 lost per decoded run. */
  lemma {:induction false} DefaultFactors()
    ensures Prod([2, 2]) * Prod([8, 5, 4, 3]) == 1920 && Lost([8, 5, 4, 3]) == 555
  {
    assert Prod([3]) == 3 * Prod([]) && Prod([4, 3]) == 4 * Prod([3]) && Prod([5, 4, 3]) == 5 * Prod([4, 3]) by {
      assert [5, 4, 3][1..] == [4, 3] && [4, 3][1..] == [3] && [3][1..] == [];
    }
    assert [8, 5, 4, 3][1..] == [5, 4, 3] && [5, 4, 3][1..] == [4, 3] && [4, 3][1..] == [3] && [3][1..] == [];
    assert Lost([3]) == 3 && Lost([4, 3]) == 12 + 3 && Lost([5, 4, 3]) == 60 + 15;
    assert [2, 2][1..] == [2] && [2][1..] == [];
    assert Prod([2]) == 2;
  }

  // ---- Chunked decoding ----

  /** Codes `start..end` are kept; `context` codes before them are decoded and dropped. */
  datatype Range = Range(start: nat, end: nat, context: nat)

  function Ranges(total: nat, chunk: nat, left: nat, start: nat): seq<Range>
    requires chunk >= 1 && start <= total
    decreases total - start
  {
    if start == total then []
    else
      var end := if start + chunk < total then start + chunk else total;
      [Range(start, end, if start > left then left else start)] + Ranges(total, chunk, left, end)
  }

  /** The kept ranges follow one another from the first code to the last, each of `chunk` codes except perhaps the
      last, and each is preceded by as much context as there is, up to the limit. */
  lemma {:induction false} RangesTile(total: nat, chunk: nat, left: nat, start: nat, i: nat)
    requires chunk >= 1 && start <= total && i < |Ranges(total, chunk, left, start)|
    ensures var rs := Ranges(total, chunk, left, start);
      && |rs| == Ceil(total - start, chunk) && rs[0].start == start && rs[|rs| - 1].end == total
      && rs[i].start < rs[i].end <= rs[i].start + chunk
      && (i < |rs| - 1 ==> rs[i].end == rs[i + 1].start == rs[i].start + chunk)
      && rs[i].context == if left < rs[i].start then left else rs[i].start
    decreases total - start
  {
    hide Ceil;
    var rs := Ranges(total, chunk, left, start);
    if total - start > chunk {
      CeilStep(total - start, chunk);
      RangesTile(total, chunk, left, start + chunk, if i == 0 then 0 else i - 1);
    } else {
      CeilOne(total - start, chunk);
    }
  }

  /** The samples of one chunk without those of its context. */
  function Piece<C, S>(codes: seq<C>, wav: seq<C> -> seq<S>, r: Range, upsample: nat): seq<S>
    requires r.context <= r.start <= r.end <= |codes|
  {
    var w := wav(codes[r.start - r.context..r.end]);
    if r.context * upsample <= |w| then w[r.context * upsample..] else []
  }

  predicate Within(rs: seq<Range>, total: nat) {
    forall i | 0 <= i < |rs| :: rs[i].context <= rs[i].start <= rs[i].end <= total
  }

  function Pieces<C, S>(codes: seq<C>, wav: seq<C> -> seq<S>, rs: seq<Range>, upsample: nat): seq<S>
    requires Within(rs, |codes|)
  {
    if rs == [] then [] else Piece(codes, wav, rs[0], upsample) + Pieces(codes, wav, rs[1..], upsample)
  }

  lemma {:induction false} RangesWithin(total: nat, chunk: nat, left: nat, start: nat)
    requires chunk >= 1 && start <= total
    ensures Within(Ranges(total, chunk, left, start), total)
    decreases total - start
  {
    if start < total {
      var end := if start + chunk < total then start + chunk else total;
      RangesWithin(total, chunk, left, end);
    }
  }

  method ChunkedDecode<C, S>(codes: seq<C>, wav: seq<C> -> seq<S>, chunk: nat, left: nat, upsample: nat)
    returns (out: seq<S>)
    requires chunk >= 1
    ensures Within(Ranges(|codes|, chunk, left, 0), |codes|)
    ensures out == Pieces(codes, wav, Ranges(|codes|, chunk, left, 0), upsample)
    ensures var rs := Ranges(|codes|, chunk, left, 0);
      && |out| == Contributed(codes, wav, rs, upsample, |rs|)
      && forall i: nat, q: nat | i < |rs| :: KeptAt(out, codes, wav, rs, upsample, i, q)
  {
    hide Piece, KeptAt, Contributed;
    RangesWithin(|codes|, chunk, left, 0);
    ghost var whole := Pieces(codes, wav, Ranges(|codes|, chunk, left, 0), upsample);
    out := [];
    var start: nat := 0;
    while start < |codes|
      invariant start <= |codes| && Within(Ranges(|codes|, chunk, left, start), |codes|)
      invariant out + Pieces(codes, wav, Ranges(|codes|, chunk, left, start), upsample) == whole
    {
      var end := if start + chunk < |codes| then start + chunk else |codes|;
      var context := if start > left then left else start;
      RangesWithin(|codes|, chunk, left, end);
      ghost var was, rest := out, Pieces(codes, wav, Ranges(|codes|, chunk, left, start), upsample);
      PiecesStep(codes, wav, chunk, left, upsample, start);
      out := out + Piece(codes, wav, Range(start, end, context), upsample);
      assert out + Pieces(codes, wav, Ranges(|codes|, chunk, left, end), upsample) == was + rest;
      start := end;
    }
    SamplesKept(codes, wav, Ranges(|codes|, chunk, left, 0), upsample);
  }

  /** Chunk `i` is decoded with its context, and its sample `q` from the end of the context on stands in `out` behind
      everything the chunks before it contributed. */
  ghost predicate KeptAt<C, S>(
    out: seq<S>, codes: seq<C>, wav: seq<C> -> seq<S>, rs: seq<Range>, upsample: nat, i: nat, q: nat)
    requires Within(rs, |codes|) && i < |rs|
  {
    var r, at := rs[i], Contributed(codes, wav, rs, upsample, i) + q;
    assert r.context <= r.start <= r.end <= |codes|;
    var w, skip := wav(codes[r.start - r.context..r.end]), r.context * upsample;
    skip + q < |w| ==> at < |out| && out[at] == w[skip + q]
  }

  lemma SamplesKept<C, S>(codes: seq<C>, wav: seq<C> -> seq<S>, rs: seq<Range>, upsample: nat)
    requires Within(rs, |codes|)
    ensures forall i: nat, q: nat | i < |rs| :: KeptAt(Pieces(codes, wav, rs, upsample), codes, wav, rs, upsample, i, q)
    ensures |Pieces(codes, wav, rs, upsample)| == Contributed(codes, wav, rs, upsample, |rs|)
  {
    hide Contributed, Pieces;
    ContributedIs(codes, wav, rs, upsample, |rs|);
    assert rs[..|rs|] == rs;
    forall i: nat, q: nat | i < |rs|
      ensures KeptAt(Pieces(codes, wav, rs, upsample), codes, wav, rs, upsample, i, q)
    {
      var r := rs[i];
      if r.context * upsample + q < |wav(codes[r.start - r.context..r.end])| {
        SampleAt(codes, wav, rs, upsample, i, q, r.context * upsample);
      }
    }
  }

  /** What the first `i` chunks contribute: their samples less those of their contexts. */
  function Contributed<C, S>(codes: seq<C>, wav: seq<C> -> seq<S>, rs: seq<Range>, upsample: nat, i: nat): nat
    requires Within(rs, |codes|) && i <= |rs|
  {
    if i == 0 then 0
    else
      var r := rs[i - 1];
      var n, skip := |wav(codes[r.start - r.context..r.end])|, r.context * upsample;
      Contributed(codes, wav, rs, upsample, i - 1) + if skip <= n then n - skip else 0
  }

  lemma {:induction false} PiecesSplit<C, S>(
      codes: seq<C>, wav: seq<C> -> seq<S>, rs: seq<Range>, upsample: nat, i: nat)
    requires Within(rs, |codes|) && i <= |rs|
    ensures Within(rs[..i], |codes|) && Within(rs[i..], |codes|)
    ensures Pieces(codes, wav, rs, upsample)
         == Pieces(codes, wav, rs[..i], upsample) + Pieces(codes, wav, rs[i..], upsample)
  {
    hide Piece;
    if i == 0 {
      assert rs[..0] == [] && rs[0..] == rs;
    } else {
      PiecesSplit(codes, wav, rs[1..], upsample, i - 1);
      assert rs[1..][..i - 1] == rs[..i][1..] && rs[1..][i - 1..] == rs[i..];
      var first := Piece(codes, wav, rs[0], upsample);
      var a, b := Pieces(codes, wav, rs[..i][1..], upsample), Pieces(codes, wav, rs[i..], upsample);
      assert first + (a + b) == (first + a) + b;
    }
  }

  lemma {:induction false} ContributedIs<C, S>(
      codes: seq<C>, wav: seq<C> -> seq<S>, rs: seq<Range>, upsample: nat, i: nat)
    requires Within(rs, |codes|) && i <= |rs|
    ensures Within(rs[..i], |codes|)
    ensures |Pieces(codes, wav, rs[..i], upsample)| == Contributed(codes, wav, rs, upsample, i)
  {
    if i > 0 {
      ContributedIs(codes, wav, rs, upsample, i - 1);
      PiecesSplit(codes, wav, rs[..i], upsample, i - 1);
      assert rs[..i][..i - 1] == rs[..i - 1] && rs[..i][i - 1..] == [rs[i - 1]];
      assert [rs[i - 1]][1..] == [];
    }
  }

  lemma {:induction false} SampleAt<C, S>(
      codes: seq<C>, wav: seq<C> -> seq<S>, rs: seq<Range>, upsample: nat, i: nat, q: nat, skip: nat)
    requires Within(rs, |codes|) && i < |rs| && rs[i].context <= rs[i].start <= rs[i].end <= |codes|
    requires skip == rs[i].context * upsample
    requires skip + q < |wav(codes[rs[i].start - rs[i].context..rs[i].end])|
    ensures var at := Contributed(codes, wav, rs, upsample, i) + q; var out := Pieces(codes, wav, rs, upsample);
      && at < |out| && |out| == Contributed(codes, wav, rs, upsample, |rs|)
      && out[at] == wav(codes[rs[i].start - rs[i].context..rs[i].end])[skip + q]
  {
    hide Contributed, Pieces, Piece, Within;
    WithinAt(rs, |codes|, i);
    ContributedIs(codes, wav, rs, upsample, i);
    ContributedIs(codes, wav, rs, upsample, |rs|);
    assert rs[..|rs|] == rs;
    PiecesSplit(codes, wav, rs, upsample, i);
    PiecesHead(codes, wav, rs, upsample, i);
    PieceAt(codes, wav, rs[i], upsample, q);
    Behind(Pieces(codes, wav, rs[..i], upsample), Piece(codes, wav, rs[i], upsample),
      Pieces(codes, wav, rs[i..][1..], upsample), q);
  }

  lemma WithinAt(rs: seq<Range>, total: nat, i: nat)
    requires Within(rs, total) && i < |rs|
    ensures rs[i].context <= rs[i].start <= rs[i].end <= total
    ensures Within(rs[i..], total) && Within(rs[i..][1..], total)
  {
  }

  lemma PiecesHead<C, S>(codes: seq<C>, wav: seq<C> -> seq<S>, rs: seq<Range>, upsample: nat, i: nat)
    requires Within(rs, |codes|) && i < |rs|
    ensures Within(rs[i..], |codes|) && Within(rs[i..][1..], |codes|)
    ensures Pieces(codes, wav, rs[i..], upsample)
         == Piece(codes, wav, rs[i], upsample) + Pieces(codes, wav, rs[i..][1..], upsample)
  {
    hide Piece;
    assert rs[i..][0] == rs[i];
  }

  lemma PieceAt<C, S>(codes: seq<C>, wav: seq<C> -> seq<S>, r: Range, upsample: nat, q: nat)
    requires r.context <= r.start <= r.end <= |codes|
    requires r.context * upsample + q < |wav(codes[r.start - r.context..r.end])|
    ensures q < |Piece(codes, wav, r, upsample)|
    ensures Piece(codes, wav, r, upsample)[q] == wav(codes[r.start - r.context..r.end])[r.context * upsample + q]
  {
  }

  lemma Behind<T>(a: seq<T>, b: seq<T>, c: seq<T>, q: nat)
    requires q < |b|
    ensures (a + (b + c))[|a| + q] == b[q]
  {
  }

  lemma PiecesStep<C, S>(codes: seq<C>, wav: seq<C> -> seq<S>, chunk: nat, left: nat, upsample: nat, start: nat)
    requires chunk >= 1 && start < |codes| && Within(Ranges(|codes|, chunk, left, start), |codes|)
    ensures var end := if start + chunk < |codes| then start + chunk else |codes|;
      var r := Range(start, end, if start > left then left else start);
      && Within(Ranges(|codes|, chunk, left, end), |codes|)
      && Ranges(|codes|, chunk, left, start) == [r] + Ranges(|codes|, chunk, left, end)
      && Pieces(codes, wav, Ranges(|codes|, chunk, left, start), upsample)
         == Piece(codes, wav, r, upsample) + Pieces(codes, wav, Ranges(|codes|, chunk, left, end), upsample)
  {
    hide Piece;
    var end := if start + chunk < |codes| then start + chunk else |codes|;
    RangesWithin(|codes|, chunk, left, end);
    assert Ranges(|codes|, chunk, left, start)[1..] == Ranges(|codes|, chunk, left, end);
  }

  /** Rates of at least 2 lose less than two full products. */
  lemma {:induction false} LostBelow(rates: seq<nat>)
    requires AtLeast(rates, 2)
    ensures Lost(rates) <= 2 * Prod(rates) - 1 && Prod(rates) >= 1
  {
    if rates != [] {
      LostBelow(rates[1..]);
      Scaled(Prod(rates[1..]), rates[0] - 1);
      var p := Prod(rates[1..]);
      assert rates[0] * p == p * (rates[0] - 1) + p;
    }
  }

  lemma PieceLength<C, S>(codes: seq<C>, wav: seq<C> -> seq<S>, r: Range, upsample: nat, lost: nat)
    requires r.context <= r.start < r.end <= |codes|
    requires var n := r.end - r.start + r.context;
      |wav(codes[r.start - r.context..r.end])| == n * upsample - lost
    ensures var kept := (r.end - r.start) * upsample;
      |Piece(codes, wav, r, upsample)| == if lost <= kept then kept - lost else 0
  {
    var kept := r.end - r.start;
    assert (kept + r.context) * upsample == kept * upsample + r.context * upsample;
  }

  lemma Product(a: nat, b: nat)
    requires a >= 1
    ensures a * b >= b
  {
    assert a * b == b + (a - 1) * b;
    assert (a - 1) * b >= 0;
  }

  /** A vocoder of these factors, on input it can decode. */
  ghost predicate Follows<C(!new), S>(wav: seq<C> -> seq<S>, ratios: seq<nat>, rates: seq<nat>) {
    forall x: seq<C> | x != [] && WavLength(|x|, ratios, rates).Some? ::
      WavLength(|x|, ratios, rates) == Some(|wav(x)|)
  }

  /** Every chunk, its context included, can be decoded. */
  predicate Decodes(rs: seq<Range>, ratios: seq<nat>, rates: seq<nat>)
    requires forall i | 0 <= i < |rs| :: rs[i].start <= rs[i].end
  {
    forall i | 0 <= i < |rs| :: WavLength(rs[i].end - rs[i].start + rs[i].context, ratios, rates).Some?
  }

  /** The kept codes of every chunk give at least the samples a run loses. */
  predicate Covered(rs: seq<Range>, upsample: nat, lost: nat)
    requires forall i | 0 <= i < |rs| :: rs[i].start <= rs[i].end
  {
    forall i | 0 <= i < |rs| :: lost <= (rs[i].end - rs[i].start) * upsample
  }

  /** Chunked decoding of T codes gives the full upsampling of T less the loss once per chunk, exactly when no chunk
      is shorter than the loss; otherwise it gives more. */
  lemma {:induction false} ChunkedLength<C(!new), S>(codes: seq<C>, wav: seq<C> -> seq<S>, chunk: nat, left: nat,
                                                     ratios: seq<nat>, rates: seq<nat>, start: nat)
    requires Follows(wav, ratios, rates) && AtLeast(ratios, 1) && AtLeast(rates, 1)
    requires chunk >= 1 && start <= |codes| && Within(Ranges(|codes|, chunk, left, start), |codes|)
    requires Decodes(Ranges(|codes|, chunk, left, start), ratios, rates)
    ensures var upsample, rs := Prod(ratios) * Prod(rates), Ranges(|codes|, chunk, left, start);
      var length := |Pieces(codes, wav, rs, upsample)|;
      var full := (|codes| - start) * upsample - Lost(rates) * Ceil(|codes| - start, chunk);
      length >= full && (length == full <==> Covered(rs, upsample, Lost(rates)))
    decreases |codes| - start
  {
    hide Piece, WavLength, Prod, Lost, Ceil, AtLeast, Follows, Covered, Decodes, Ranges, Pieces;
    var upsample, lost := Prod(ratios) * Prod(rates), Lost(rates);
    if start < |codes| {
      var end := if start + chunk < |codes| then start + chunk else |codes|;
      var r := Range(start, end, if start > left then left else start);
      PiecesStep(codes, wav, chunk, left, upsample, start);
      var rest := Ranges(|codes|, chunk, left, end);
      DecodesStep(r, rest, ratios, rates);
      ChunkLength(codes, wav, r, ratios, rates);
      ChunkedLength(codes, wav, chunk, left, ratios, rates, end);
      OneMoreChunk(|codes| - start, chunk, upsample, lost);
      CoveredStep(r, rest, upsample, lost);
    } else {
      NoChunks(codes, wav, chunk, left, upsample, lost);
    }
  }

  lemma NoChunks<C, S>(codes: seq<C>, wav: seq<C> -> seq<S>, chunk: nat, left: nat, upsample: nat, lost: nat)
    requires chunk >= 1
    ensures var rs := Ranges(|codes|, chunk, left, |codes|);
      rs == [] && Pieces(codes, wav, rs, upsample) == [] && Covered(rs, upsample, lost)
    ensures 0 * upsample - lost * Ceil(0, chunk) == 0
  {
    CeilZero(chunk);
  }

  lemma DecodesStep(r: Range, rest: seq<Range>, ratios: seq<nat>, rates: seq<nat>)
    requires r.start <= r.end && forall i | 0 <= i < |rest| :: rest[i].start <= rest[i].end
    requires Decodes([r] + rest, ratios, rates)
    ensures WavLength(r.end - r.start + r.context, ratios, rates).Some? && Decodes(rest, ratios, rates)
  {
    hide WavLength;
    var rs := [r] + rest;
    assert rs[0] == r && forall i | 0 <= i < |rest| :: rest[i] == rs[i + 1];
  }

  lemma CoveredStep(r: Range, rest: seq<Range>, upsample: nat, lost: nat)
    requires r.start <= r.end && forall i | 0 <= i < |rest| :: rest[i].start <= rest[i].end
    ensures Covered([r] + rest, upsample, lost)
      <==> lost <= (r.end - r.start) * upsample && Covered(rest, upsample, lost)
  {
    var rs := [r] + rest;
    assert rs[0] == r && forall i | 0 <= i < |rest| :: rest[i] == rs[i + 1];
  }

  /** With two frames or more per code before the decoder blocks and rates of at least 2, as by default, every chunk
      decodes and none is shorter than the loss. */
  lemma {:induction false} UsualChunks(total: nat, chunk: nat, left: nat, ratios: seq<nat>, rates: seq<nat>)
    requires AtLeast(ratios, 1) && AtLeast(rates, 2) && Prod(ratios) >= 2 && chunk >= 1
    ensures var rs := Ranges(total, chunk, left, 0);
      && Within(rs, total) && Decodes(rs, ratios, rates) && Covered(rs, Prod(ratios) * Prod(rates), Lost(rates))
  {
    hide WavLength, Prod, Lost, Ceil, Need, Ranges;
    var rs, upsample := Ranges(total, chunk, left, 0), Prod(ratios) * Prod(rates);
    RangesWithin(total, chunk, left, 0);
    NeedTwo(rates);
    LostBelow(rates);
    TwiceAtMost(Prod(ratios), Prod(rates));
    forall i | 0 <= i < |rs|
      ensures WavLength(rs[i].end - rs[i].start + rs[i].context, ratios, rates).Some?
      ensures Lost(rates) <= (rs[i].end - rs[i].start) * upsample
    {
      RangesTile(total, chunk, left, 0, i);
      var n, kept := rs[i].end - rs[i].start + rs[i].context, rs[i].end - rs[i].start;
      Product(n, Prod(ratios));
      Product(kept, upsample);
      WavIs(n, ratios, rates);
    }
  }

  lemma CeilZero(w: nat)
    requires w >= 1
    ensures Ceil(0, w) == 0
  {
    DivUnique(w - 1, w, 0, w - 1);
  }

  lemma ChunkLength<C(!new), S>(codes: seq<C>, wav: seq<C> -> seq<S>, r: Range, ratios: seq<nat>, rates: seq<nat>)
    requires Follows(wav, ratios, rates) && AtLeast(ratios, 1) && AtLeast(rates, 1)
    requires r.context <= r.start < r.end <= |codes|
    requires WavLength(r.end - r.start + r.context, ratios, rates).Some?
    ensures var upsample := Prod(ratios) * Prod(rates); var kept := (r.end - r.start) * upsample;
      |Piece(codes, wav, r, upsample)| == if Lost(rates) <= kept then kept - Lost(rates) else 0
  {
    hide Piece, WavLength, Prod, Lost, AtLeast, Need;
    var x := codes[r.start - r.context..r.end];
    WavIs(|x|, ratios, rates);
    PieceLength(codes, wav, r, Prod(ratios) * Prod(rates), Lost(rates));
  }

  lemma TwiceAtMost(p: nat, q: nat)
    requires p >= 2
    ensures 2 * q <= p * q
  {
    assert p * q == 2 * q + (p - 2) * q;
    assert (p - 2) * q >= 0;
  }

  lemma OneMoreChunk(n: nat, chunk: nat, upsample: nat, lost: nat)
    requires chunk >= 1 && n >= 1
    ensures var m := if chunk < n then chunk else n;
      m * upsample - lost + ((n - m) * upsample - lost * Ceil(n - m, chunk)) == n * upsample - lost * Ceil(n, chunk)
  {
    hide Ceil;
    var m := if chunk < n then chunk else n;
    if chunk < n { CeilStep(n, chunk); } else { CeilOne(n, chunk); CeilZero(chunk); }
    var k := Ceil(n - m, chunk);
    assert Ceil(n, chunk) == k + 1 && lost * (k + 1) == lost * k + lost;
    assert (n - m) * upsample == n * upsample - m * upsample;
  }
}
