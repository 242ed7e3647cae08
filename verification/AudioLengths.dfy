/** Audio length arithmetic: the closed length formula, the chunked encoder and its packing. */
module AudioLengths {

  /** Output length the processor, the encoder and the position index all use. */
  function FeatLen(n: nat): (r: nat)
    ensures n >= 1 ==> r >= 1
  {
    var leave := n % 100;
    var feat := (leave - 1) / 2 + 1;
    ((feat - 1) / 2 + 1 - 1) / 2 + 1 + (n / 100) * 13
  }

  /** Output length of a convolution with kernel 3, stride 2 and padding 1. */
  function Conv(n: nat): int {
    (n + 2 * 1 - 3) / 2 + 1
  }

  /** The three convolutions the encoder actually runs on a padded chunk. */
  function Conv3(n: nat): nat {
    var a := Conv(n);
    var b := Conv(a);
    Conv(b)
  }

  /** The closed forms: 13 frames per full hundred, then an eighth, rounded up. */
  lemma {:induction false} ClosedForms(n: nat)
    ensures FeatLen(n) == 13 * (n / 100) + (n % 100 + 7) / 8
    ensures Conv3(n) == (n + 7) / 8
  {
  }

  function Sum(s: seq<nat>): nat {
    if s == [] then 0 else s[0] + Sum(s[1..])
  }

  lemma {:induction false} SumConcat(a: seq<nat>, b: seq<nat>)
    ensures Sum(a + b) == Sum(a) + Sum(b)
  {
    if a == [] {
      assert a + b == b;
    } else {
      assert (a + b)[1..] == a[1..] + b;
      SumConcat(a[1..], b);
    }
  }

  function Max(s: seq<nat>): (r: nat)
    requires s != []
    ensures r in s && forall i | 0 <= i < |s| :: s[i] <= r
  {
    if |s| == 1 then s[0] else var m := Max(s[1..]); if s[0] < m then m else s[0]
  }

  /** Total output length of a list of inputs. */
  function SumFeat(ns: seq<nat>): nat {
    if ns == [] then 0 else FeatLen(ns[0]) + SumFeat(ns[1..])
  }

  lemma {:induction false} SumFeatConcat(a: seq<nat>, b: seq<nat>)
    ensures SumFeat(a + b) == SumFeat(a) + SumFeat(b)
  {
    if a == [] {
      assert a + b == b;
    } else {
      assert (a + b)[1..] == a[1..] + b;
      SumFeatConcat(a[1..], b);
    }
  }

  lemma SumFeatSnoc(ns: seq<nat>)
    requires ns != []
    ensures SumFeat(ns) == SumFeat(ns[..|ns| - 1]) + FeatLen(ns[|ns| - 1])
  {
    hide FeatLen;
    var k := |ns| - 1;
    assert ns == ns[..k] + [ns[k]];
    SumFeatConcat(ns[..k], [ns[k]]);
    assert [ns[k]][1..] == [];
  }

  // ---- Chunking ----

  /** The chunks of one sample: full windows and a tail of 1..w frames. */
  function ChunksOf(n: nat, w: nat): seq<nat>
    requires w > 0
    decreases n
  {
    if n == 0 then [] else if n <= w then [n] else [w] + ChunksOf(n - w, w)
  }

  /** Chunks are non-empty, no longer than the window, and together the sample. */
  lemma {:induction false} ChunksTile(n: nat, w: nat)
    requires w > 0
    ensures Sum(ChunksOf(n, w)) == n
    ensures forall i | 0 <= i < |ChunksOf(n, w)| :: 1 <= ChunksOf(n, w)[i] <= w
    decreases n
  {
    if n > w { ChunksTile(n - w, w); }
  }

  function Chunks(lens: seq<nat>, w: nat): seq<nat>
    requires w > 0
  {
    if lens == [] then [] else Chunks(lens[..|lens| - 1], w) + ChunksOf(lens[|lens| - 1], w)
  }

  function Ceil(n: nat, w: nat): nat
    requires w > 0
  {
    (n + w - 1) / w
  }

  function ChunkCount(lens: seq<nat>, w: nat): nat
    requires w > 0
  {
    if lens == [] then 0 else ChunkCount(lens[..|lens| - 1], w) + Ceil(lens[|lens| - 1], w)
  }

  /** One sample's chunks, in the form the in-place fill produces them. */
  lemma {:induction false} ChunksShape(n: nat, w: nat)
    requires w > 0 && n > 0
    ensures |ChunksOf(n, w)| == Ceil(n, w) > 0
    ensures forall i | 0 <= i < Ceil(n, w) - 1 :: ChunksOf(n, w)[i] == w
    ensures ChunksOf(n, w)[Ceil(n, w) - 1] == if n % w == 0 then w else n % w
  {
    hide Ceil;
    if n <= w {
      CeilOne(n, w);
    } else {
      ChunksShape(n - w, w);
      CeilStep(n, w);
    }
  }

  lemma CeilOne(n: nat, w: nat)
    requires 0 < n <= w
    ensures Ceil(n, w) == 1 && n % w == if n == w then 0 else n
  {
    DivUnique(n + w - 1, w, 1, n - 1);
    DivUnique(n, w, if n == w then 1 else 0, if n == w then 0 else n);
  }

  lemma CeilStep(n: nat, w: nat)
    requires 0 < w < n
    ensures Ceil(n, w) == Ceil(n - w, w) + 1 && n % w == (n - w) % w
  {
    var q, r := (n - w + w - 1) / w, (n - w + w - 1) % w;
    assert n + w - 1 == w * (q + 1) + r;
    DivUnique(n + w - 1, w, q + 1, r);
    var p, t := (n - w) / w, (n - w) % w;
    assert n == w * (p + 1) + t;
    DivUnique(n, w, p + 1, t);
  }

  lemma DivUnique(n: int, w: int, q: int, r: int)
    requires w > 0 && 0 <= r < w && n == w * q + r
    ensures n / w == q && n % w == r
  {
    var a, b := n / w, n % w;
    assert n == w * a + b && 0 <= b < w;
    Scaled(w, a - q);
    assert w * (a - q) == w * a - w * q == r - b;
  }

  lemma Scaled(w: int, k: int)
    requires w > 0
    ensures k >= 1 ==> w * k >= w
    ensures k <= -1 ==> w * k <= -w
  {
    if k >= 1 {
      assert w * k == w + w * (k - 1) && w * (k - 1) >= 0;
    } else if k <= -1 {
      assert w * k == -w + w * (k + 1) && w * (k + 1) <= 0;
    }
  }

  /** The chunk lengths of a batch, filled in place: every slot a full window, then each sample's tail
      slot overwritten by the remainder, then zero remainders turned back into full windows. */
  method ChunkLengths(lens: seq<nat>, nWindow: nat) returns (a: array<nat>)
    requires nWindow > 0 && forall i | 0 <= i < |lens| :: lens[i] > 0
    ensures fresh(a) && a[..] == Chunks(lens, nWindow * 2)
  {
    hide Ceil, Chunks, ChunksOf, ChunkCount, Raw;
    var w := nWindow * 2;
    a := new nat[ChunkCount(lens, w)];
    for k := 0 to a.Length
      invariant forall j | 0 <= j < k :: a[j] == w
    {
      a[k] := w;
    }
    var tail := -1;
    RawNone(lens, w);
    for b := 0 to |lens|
      invariant tail == ChunkCount(lens[..b], w) - 1 < a.Length
      invariant a[..tail + 1] == Raw(lens[..b], w)
      invariant forall j | tail < j < a.Length :: a[j] == w
    {
      CountSnoc(lens, b, w);
      ghost var before := tail;
      tail := tail + Ceil(lens[b], w);
      a[tail] := lens[b] % w;
      assert a[..tail + 1] == a[..before + 1] + a[before + 1..tail + 1];
      assert a[before + 1..tail + 1] == RawOf(lens[b], w);
    }
    assert lens[..|lens|] == lens;
    for k := 0 to a.Length
      invariant forall j | 0 <= j < k :: a[j] == if Raw(lens, w)[j] == 0 then w else Raw(lens, w)[j]
      invariant forall j | k <= j < a.Length :: a[j] == Raw(lens, w)[j]
    {
      if a[k] == 0 {
        a[k] := w;
      }
    }
    RawChunks(lens, w);
  }

  /** One sample's slots before zero remainders are repaired. */
  function RawOf(n: nat, w: nat): seq<nat>
    requires w > 0 && n > 0
  {
    CeilPositive(n, w);
    seq(Ceil(n, w), i requires 0 <= i < Ceil(n, w) => if i == Ceil(n, w) - 1 then n % w else w)
  }

  function Raw(lens: seq<nat>, w: nat): (r: seq<nat>)
    requires w > 0 && forall i | 0 <= i < |lens| :: lens[i] > 0
    ensures |r| == ChunkCount(lens, w)
  {
    if lens == [] then [] else Raw(lens[..|lens| - 1], w) + RawOf(lens[|lens| - 1], w)
  }

  lemma RawNone(lens: seq<nat>, w: nat)
    requires w > 0
    ensures ChunkCount(lens[..0], w) == 0 && Raw(lens[..0], w) == []
  {
  }

  lemma CountSnoc(lens: seq<nat>, b: nat, w: nat)
    requires w > 0 && b < |lens| && forall i | 0 <= i < |lens| :: lens[i] > 0
    ensures ChunkCount(lens[..b + 1], w) == ChunkCount(lens[..b], w) + Ceil(lens[b], w) <= ChunkCount(lens, w)
    ensures Raw(lens[..b + 1], w) == Raw(lens[..b], w) + RawOf(lens[b], w)
    ensures Ceil(lens[b], w) > 0
  {
    hide Ceil, RawOf;
    assert lens[..b + 1][..b] == lens[..b];
    CountPrefix(lens, b + 1, w);
    CeilPositive(lens[b], w);
  }

  lemma CeilPositive(n: nat, w: nat)
    requires w > 0 && n > 0
    ensures Ceil(n, w) > 0
  {
    ChunksShape(n, w);
  }

  lemma {:induction false} CountPrefix(lens: seq<nat>, b: nat, w: nat)
    requires w > 0 && b <= |lens|
    ensures ChunkCount(lens[..b], w) <= ChunkCount(lens, w)
  {
    if b == |lens| {
      assert lens[..b] == lens;
    } else {
      CountPrefix(lens[..|lens| - 1], b, w);
      assert lens[..|lens| - 1][..b] == lens[..b];
    }
  }

  lemma {:induction false} RawChunks(lens: seq<nat>, w: nat)
    requires w > 0 && forall i | 0 <= i < |lens| :: lens[i] > 0
    ensures |Raw(lens, w)| == |Chunks(lens, w)|
    ensures forall j | 0 <= j < |Raw(lens, w)| ::
      Chunks(lens, w)[j] == if Raw(lens, w)[j] == 0 then w else Raw(lens, w)[j]
  {
    if lens != [] {
      RawChunks(lens[..|lens| - 1], w);
      ChunksShape(lens[|lens| - 1], w);
    }
  }

  // ---- Agreement of the chunked and the whole-sample lengths ----

  lemma FeatStep(n: nat, w: nat)
    requires w % 100 == 0
    ensures FeatLen(n + w) == FeatLen(n) + FeatLen(w)
  {
    hide FeatLen, Conv3;
    ClosedForms(n + w);
    ClosedForms(n);
    ClosedForms(w);
    var k := w / 100;
    assert w == 100 * k;
    assert (n + w) / 100 == n / 100 + k && (n + w) % 100 == n % 100;
  }

  lemma {:induction false} ChunkSum(n: nat, w: nat)
    requires w > 0 && w % 100 == 0
    ensures SumFeat(ChunksOf(n, w)) == FeatLen(n)
    decreases n
  {
    hide FeatLen, ChunksOf, SumFeat;
    ChunkSumStep(n, w);
    if n > w {
      ChunkSum(n - w, w);
      FeatStep(n - w, w);
    }
  }

  lemma ChunkSumStep(n: nat, w: nat)
    requires w > 0
    ensures SumFeat(ChunksOf(n, w)) == if n > w then FeatLen(w) + SumFeat(ChunksOf(n - w, w)) else FeatLen(n)
  {
    hide FeatLen;
    FeatLenZero();
    if 0 < n <= w { assert [n][1..] == []; }
    if n > w { assert ([w] + ChunksOf(n - w, w))[1..] == ChunksOf(n - w, w); }
  }

  lemma FeatLenZero()
    ensures FeatLen(0) == 0
  {
  }

  lemma {:induction false} EqualChunks(k: nat, n: nat, w: nat)
    requires w > 0 && k > 0 && n == k * w
    ensures SumFeat(ChunksOf(n, w)) == k * FeatLen(w)
  {
    hide FeatLen;
    var f := FeatLen(w);
    if k > 1 {
      Scaled(w, k - 1);
      assert n - w == (k - 1) * w;
      EqualChunks(k - 1, n - w, w);
      assert k * f == f + (k - 1) * f;
    }
  }

  ghost predicate ChunkSumsAgree(w: nat)
    requires w > 0
  {
    forall n: nat :: SumFeat(ChunksOf(n, w)) == FeatLen(n)
  }

  ghost predicate StrideAgrees(w: nat) {
    forall n: nat | n <= w :: FeatLen(n) == Conv3(n)
  }

  /** Chunk outputs add up to the whole-sample length, for every length, exactly when the window is a
      multiple of 100 frames. */
  lemma ChunkSumsAgreeIff(w: nat)
    requires w > 0
    ensures ChunkSumsAgree(w) <==> w % 100 == 0
  {
    if w % 100 == 0 {
      forall n: nat ensures SumFeat(ChunksOf(n, w)) == FeatLen(n) { ChunkSum(n, w); }
    } else {
      EqualChunks(100, 100 * w, w);
      NotProportional(w, FeatLen(w));
      ClosedForms(100 * w);
    }
  }

  lemma NotProportional(w: nat, f: nat)
    requires w % 100 != 0
    ensures 100 * f != 13 * w
  {
    assert 100 * f == 13 * w ==> w == 100 * (77 * f - 10 * w);
  }

  /** The index stride equals the encoder's convolution length, for every chunk length the window allows,
      exactly when the window is at most 100 frames. */
  lemma StrideAgreesIff(w: nat)
    ensures StrideAgrees(w) <==> w <= 100
  {
    hide FeatLen, Conv3;
    ClosedForms(101);
    forall n: nat | n <= 100 ensures FeatLen(n) == Conv3(n) {
      ClosedForms(n);
    }
  }

  /** With both, the only window left is 100 frames: `n_window` must be 50; the default 100 is not. */
  lemma WindowIsHundred(nWindow: nat)
    requires nWindow > 0
    ensures nWindow == 50 <==> ChunkSumsAgree(nWindow * 2) && StrideAgrees(nWindow * 2)
  {
    hide ChunkSumsAgree, StrideAgrees;
    ChunkSumsAgreeIff(nWindow * 2);
    StrideAgreesIff(nWindow * 2);
  }

  lemma {:induction false} ChunksFeat(lens: seq<nat>, w: nat)
    requires w > 0 && w % 100 == 0
    ensures SumFeat(Chunks(lens, w)) == SumFeat(lens)
  {
    hide FeatLen, ChunksOf;
    if lens != [] {
      var k := |lens| - 1;
      ChunksFeat(lens[..k], w);
      ChunkSum(lens[k], w);
      SumFeatConcat(Chunks(lens[..k], w), ChunksOf(lens[k], w));
      SumFeatSnoc(lens);
    }
  }
}
