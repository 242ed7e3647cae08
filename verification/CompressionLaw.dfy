/** What compression keeps, and how masks and shifted targets line up on the compressed row. */
module CompressionLaw {
  import opened Sequences
  import opened Wrappers
  import opened AudioLengths
  import opened Compression
  import opened CompressBatch

  /** A compressible row: verbatim prefix, one pooled value per group, verbatim answer; the groups are the
      reasoning tokens in order, and the pooled values weighted by their divisors sum to the reasoning. */
  lemma {:induction false} CompressionKeeps(
      row: Row, ids: seq<nat>, emb: seq<real>, labels: seq<int>, valid: nat, r: nat, s: Settings)
    requires WellSized(ids, emb, labels, valid, r, s) && Compressed(row, ids, emb, labels, valid, r, s)
    requires SplitRow(ids, valid, s).Some?
    ensures var span := SplitRow(ids, valid, s).value; var reason := emb[span.start..span.close];
      var groups := Groups(reason, r); var k := |groups|;
      && k == Ceil(|reason|, r) && Joined(groups) == reason
      && (forall j | 0 <= j < k :: 1 <= |groups[j]| <= r && (j < k - 1 ==> |groups[j]| == r))
      && |row.embeds| == span.start + k + valid - span.close
      && row.embeds[..span.start] == emb[..span.start] && row.embeds[span.start + k..] == emb[span.close..valid]
      && Weighted(groups, row.embeds[span.start..span.start + k], s) == SumOf(reason)
  {
    hide Ceil, Groups, SumOf, Divisor, PoolOne, Weighted, Joined;
    var span := SplitRow(ids, valid, s).value;
    var reason := emb[span.start..span.close];
    var groups := Groups(reason, r);
    GroupsTile(reason, r);
    forall j | 0 <= j < |groups| ensures 1 <= |groups[j]| <= r && (j < |groups| - 1 ==> |groups[j]| == r) {
      GroupSizes(reason, r, j);
    }
    GroupsPoolable(reason, r, s);
    PoolConserves(groups, s);
    assert row.embeds[span.start..span.start + |groups|] == Pool(groups, s);
  }

  lemma {:induction false} IndexInPrefix(row: seq<nat>, n: nat, x: nat)
    requires n <= |row|
    ensures IndexOf(row[..n], x)
         == match IndexOf(row, x) case Some(i) => (if i < n then Some(i) else None) case None => None
  {
    if n > 0 {
      IndexInPrefix(row[1..], n - 1, x);
      assert row[..n][1..] == row[1..][..n - 1];
    } else {
      assert row[..n] == [];
    }
  }

  /** Whatever follows the attended tokens does not change the split: tags found in padding count as absent. */
  lemma {:induction false} SplitIgnoresPadding(ids: seq<nat>, valid: nat, s: Settings)
    requires valid <= |ids|
    ensures SplitRow(ids, valid, s) == SplitRow(ids[..valid], valid, s)
  {
    hide IndexOf;
    IndexInPrefix(ids, valid, s.open);
    IndexInPrefix(ids, valid, s.close);
  }

  /** Two rows that agree on their attended tokens compress to the same rows, however they are padded. */
  lemma {:induction false} PaddingIsInert(
      row: Row, ids: seq<nat>, emb: seq<real>, labels: seq<int>, valid: nat, r: nat, s: Settings,
                       ids': seq<nat>, emb': seq<real>, labels': seq<int>)
    requires WellSized(ids, emb, labels, valid, r, s) && WellSized(ids', emb', labels', valid, r, s)
    requires ids[..valid] == ids'[..valid] && emb[..valid] == emb'[..valid] && labels[..valid] == labels'[..valid]
    requires Compressed(row, ids, emb, labels, valid, r, s)
    ensures Compressed(row, ids', emb', labels', valid, r, s)
  {
    hide SplitRow, Groups, Ceil, Drawn, Pool, Poolable;
    SplitIgnoresPadding(ids, valid, s);
    SplitIgnoresPadding(ids', valid, s);
    var split := SplitRow(ids, valid, s);
    if split.Some? {
      var span := split.value;
      Slices(ids, ids', valid, span.start, span.close);
      Slices(emb, emb', valid, span.start, span.close);
      Slices(labels, labels', valid, span.start, span.close);
    }
  }

  lemma Slices<T>(x: seq<T>, y: seq<T>, n: nat, lo: nat, hi: nat)
    requires lo <= hi <= n <= |x| && n <= |y| && x[..n] == y[..n]
    ensures x[..lo] == y[..lo] && x[lo..hi] == y[lo..hi] && x[hi..n] == y[hi..n]
  {
    assert x[..lo] == x[..n][..lo] && x[lo..hi] == x[..n][lo..hi] && x[hi..n] == x[..n][hi..];
    assert y[..lo] == y[..n][..lo] && y[lo..hi] == y[..n][lo..hi] && y[hi..n] == y[..n][hi..];
  }

  /** The length of the compressed row: a function of the ratio and the attended tokens alone. */
  function CompressedLength(ids: seq<nat>, valid: nat, r: nat, s: Settings): nat
    requires valid <= |ids| && r > 0
  {
    match SplitRow(ids, valid, s)
    case None => valid
    case Some(span) => span.start + Ceil(span.close - span.start, r) + valid - span.close
  }

  lemma {:induction false} LengthIs(
      row: Row, ids: seq<nat>, emb: seq<real>, labels: seq<int>, valid: nat, r: nat, s: Settings)
    requires WellSized(ids, emb, labels, valid, r, s) && Compressed(row, ids, emb, labels, valid, r, s)
    ensures |row.embeds| == CompressedLength(ids, valid, r, s) == CompressedLength(ids[..valid], valid, r, s)
  {
    hide Ceil, Groups, Drawn;
    SplitIgnoresPadding(ids, valid, s);
  }

  // ---- Supervision ----

  /** `torch.roll(x, -1)`: position t holds what was at t + 1, the last one what was first. */
  function Rolled<T>(x: seq<T>): (y: seq<T>)
    ensures |y| == |x| && forall t | 0 <= t < |x| - 1 :: y[t] == x[t + 1]
  {
    if x == [] then [] else x[1..] + [x[0]]
  }

  /** The positions supervised in a padded row are one run of k + 1 slots from the last prefix token; their rolled
      targets are the k pooled embeddings and then the closing tag's own, all inside the row. */
  lemma {:induction false} SupervisionAligned(batch: Batch, b: nat, row: Row, width: nat,
                           ids: seq<nat>, emb: seq<real>, labels: seq<int>, valid: nat, r: nat, s: Settings, t: nat)
    requires WellSized(ids, emb, labels, valid, r, s) && Compressed(row, ids, emb, labels, valid, r, s)
    requires SplitRow(ids, valid, s).Some? && Placed(batch, b, row, width) && t < width
    ensures |batch.think[b]| == |batch.gold[b]| == width
    ensures var span := SplitRow(ids, valid, s).value; var latents := Latents(emb, span, r, s); var k := |latents|;
      && (batch.think[b][t] <==> span.start - 1 <= t <= span.start - 1 + k)
      && (batch.think[b][t] ==> t + 1 < |row.embeds|)
      && (span.start - 1 <= t < span.start - 1 + k ==> Rolled(batch.gold[b])[t] == latents[t + 1 - span.start])
      && (t == span.start - 1 + k ==> Rolled(batch.gold[b])[t] == emb[span.close] && ids[span.close] == s.close)
  {
    hide Ceil, Groups, Drawn, Pool, Poolable;
    var span := SplitRow(ids, valid, s).value;
    hide SplitRow;
    var latents := Latents(emb, span, r, s);
    hide Latents;
    var k := |latents|;
    var gold := batch.gold[b];
    if span.start - 1 <= t < span.start - 1 + k {
      assert gold[t + 1] == row.embeds[t + 1] == latents[t + 1 - span.start];
    } else if t == span.start - 1 + k {
      assert gold[t + 1] == row.embeds[t + 1] == emb[span.close..valid][0];
    }
  }

  function Ones(think: seq<bool>): (r: seq<nat>)
    ensures forall i | 0 <= i < |r| :: r[i] < |think| && think[r[i]]
    ensures forall t | 0 <= t < |think| && think[t] :: t in r
    ensures forall i, j | 0 <= i < j < |r| :: r[i] < r[j]
  {
    if think == [] then []
    else
      var k := |think| - 1;
      Ones(think[..k]) + if think[k] then [k] else []
  }

  lemma EarlierIndex(idx: seq<nat>, i: nat, j: nat)
    requires forall a, b | 0 <= a < b < |idx| :: idx[a] < idx[b]
    requires i < |idx| && j < |idx| && idx[i] < idx[j]
    ensures i < j
  {
  }

  lemma OnesRest(think: seq<bool>, t: nat)
    requires t < |think|
    ensures (exists j :: 1 <= j < |Ones(think)| && Ones(think)[j] == t)
      <==> think[t] && exists u :: 0 <= u < t && think[u]
  {
    var idx := Ones(think);
    hide Ones;
    if think[t] {
      var j :| 0 <= j < |idx| && idx[j] == t;
      if j > 0 { assert think[idx[0]] && idx[0] < t; }
      if u :| 0 <= u < t && think[u] {
        var i :| 0 <= i < |idx| && idx[i] == u;
        EarlierIndex(idx, i, j);
        assert 1 <= j < |Ones(think)| && Ones(think)[j] == t;
      }
    }
  }

  /** The inputs that are latents: every supervised position but the first. */
  method LatentInputMask(think: seq<bool>) returns (mask: array<bool>)
    ensures fresh(mask) && mask.Length == |think|
    ensures forall t | 0 <= t < |think| :: mask[t] <==> think[t] && exists u :: 0 <= u < t && think[u]
  {
    hide Ones;
    mask := new bool[|think|];
    for t := 0 to |think|
      invariant forall u | 0 <= u < t :: !mask[u]
    {
      mask[t] := false;
    }
    var idx := Ones(think);
    if |idx| > 1 {
      for i := 1 to |idx|
        invariant forall t | 0 <= t < |think| :: mask[t] <==> exists j :: 1 <= j < i && idx[j] == t
      {
        mask[idx[i]] := true;
      }
    }
    forall t | 0 <= t < |think| ensures mask[t] <==> think[t] && exists u :: 0 <= u < t && think[u] {
      OnesRest(think, t);
    }
  }

  /** On a compressed row the latent inputs are exactly the k pooled slots. */
  lemma LatentInputsArePooled(batch: Batch, b: nat, row: Row, width: nat,
                              ids: seq<nat>, emb: seq<real>, labels: seq<int>, valid: nat, r: nat, s: Settings, t: nat)
    requires WellSized(ids, emb, labels, valid, r, s) && Compressed(row, ids, emb, labels, valid, r, s)
    requires SplitRow(ids, valid, s).Some? && Placed(batch, b, row, width) && t < width == |batch.think[b]|
    ensures var span := SplitRow(ids, valid, s).value; var k := Ceil(span.close - span.start, r);
      var think := batch.think[b];
      (think[t] && exists u :: 0 <= u < t && think[u]) <==> span.start <= t < span.start + k
  {
    hide Ceil, Groups, Drawn, Pool, Poolable;
    var span := SplitRow(ids, valid, s).value;
    hide SplitRow;
    assert batch.think[b][span.start - 1];
  }

  // ---- Ratio one ----

  /** Without compression: the positions strictly between the first opening and the first closing tag. */
  method BuildThinkMask(ids: seq<nat>, s: Settings) returns (mask: array<bool>)
    ensures fresh(mask) && mask.Length == |ids|
    ensures forall t | 0 <= t < |ids| :: mask[t] <==> Between(ids, s, t)
  {
    mask := new bool[|ids|];
    for t := 0 to |ids|
      invariant forall u | 0 <= u < t :: !mask[u]
    {
      mask[t] := false;
    }
    match (IndexOf(ids, s.open), IndexOf(ids, s.close))
    case (Some(o), Some(c)) =>
      if c > o + 1 {
        for t := o + 1 to c
          invariant forall u | 0 <= u < |ids| :: mask[u] <==> o < u < t
        {
          mask[t] := true;
        }
      }
    case _ =>
  }

  predicate Between(ids: seq<nat>, s: Settings, t: nat) {
    IndexOf(ids, s.open).Some? && IndexOf(ids, s.close).Some?
    && IndexOf(ids, s.open).value < t < IndexOf(ids, s.close).value
  }

  /** At ratio one the uncompressed mask is the run that compression would supervise exactly when the prompt's
      newline follows the opening tag; otherwise it misses the last prefix token. */
  lemma UnitMaskIff(ids: seq<nat>, valid: nat, s: Settings)
    requires valid <= |ids| && SplitRow(ids, valid, s).Some?
    ensures var span := SplitRow(ids, valid, s).value; var k := Ceil(span.close - span.start, 1);
      (forall t | 0 <= t < |ids| :: Between(ids, s, t) <==> span.start - 1 <= t <= span.start - 1 + k)
      <==> s.newline == Some(ids[IndexOf(ids, s.open).value + 1])
  {
    hide IndexOf;
    var span := SplitRow(ids, valid, s).value;
    DivUnique(span.close - span.start + 1 - 1, 1, span.close - span.start, 0);
    var o := IndexOf(ids, s.open).value;
    assert Between(ids, s, span.start - 1) <==> o < span.start - 1;
  }

  /** Without a newline after the opening tag, the supervised run starts on the tag itself and the mask does not. */
  lemma UnitMaskExample(s: Settings)
    requires s == Settings(7, 8, Some(9), 0, s.norm)
    ensures var ids := [7, 5, 8];
      SplitRow(ids, 3, s) == Some(Span(1, 2)) && !Between(ids, s, 0) && Between(ids, s, 1)
  {
    var ids := [7, 5, 8];
    assert IndexOf(ids, 7) == Some(0);
    assert IndexOf(ids, 8) == Some(2);
  }
}
