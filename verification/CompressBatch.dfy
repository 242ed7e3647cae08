/** `_compress_batch`: pooling by padded groups, rows rebuilt one by one, then padded into a batch. */
module CompressBatch {
  import opened Sequences
  import opened AudioLengths
  import opened AudioPacking
  import opened Compression
  import opened CompressionPoints

  function Min(a: nat, b: nat): nat {
    if a < b then a else b
  }

  function Rest<T>(x: seq<T>, at: nat): seq<T> {
    if at <= |x| then x[at..] else []
  }

  /** The slots of one group, padded ones masked out. */
  method GroupSum(padded: seq<real>, ones: seq<bool>, at: nat, r: nat, ghost n: nat) returns (sum: real, count: nat)
    requires |padded| == |ones| && at <= n && at + r <= |padded| && n <= |padded|
    requires forall i | 0 <= i < |ones| :: ones[i] <==> i < n
    ensures sum == SumOf(padded[at..Min(at + r, n)]) && count == Min(at + r, n) - at
  {
    sum, count := 0.0, 0;
    for i := 0 to r
      invariant sum == SumOf(padded[at..Min(at + i, n)]) && count == Min(at + i, n) - at
    {
      if ones[at + i] {
        assert padded[at..at + i + 1][..i] == padded[at..at + i];
        sum := sum + padded[at + i];
        count := count + 1;
      }
    }
  }

  lemma FirstGroup<T>(x: seq<T>, at: nat, r: nat)
    requires r > 0 && at < |x|
    ensures var g := Groups(Rest(x, at), r);
      g != [] && g[0] == x[at..Min(at + r, |x|)] && g[1..] == Groups(Rest(x, at + r), r)
  {
    var rest := Rest(x, at);
    if |rest| > r { assert rest[r..] == Rest(x, at + r); }
  }

  /** What is missing to whole groups. */
  function Missing(n: int, r: nat): int
    requires r > 0
  {
    (-n) % r
  }

  /** Right padding makes whole groups: as many as the unpadded ones. */
  lemma {:induction false} PaddedGroups(n: nat, r: nat)
    requires r > 0
    ensures Missing(n, r) >= 0 && (n + Missing(n, r)) / r == Ceil(n, r)
    ensures Slot(Ceil(n, r), r) == n + Missing(n, r)
  {
    var q, m := n / r, n % r;
    var neg: int := 0 - n;
    if m == 0 {
      assert n == r * q;
      DivUnique(neg, r, -q, 0);
      DivUnique(n, r, q, 0);
      DivUnique(n + r - 1, r, q, r - 1);
    } else {
      assert n == r * q + m && r * (q + 1) == r * q + r && r * (-q - 1) == -(r * q) - r;
      DivUnique(neg, r, -q - 1, r - m);
      DivUnique(n + (r - m), r, q + 1, 0);
      DivUnique(n + r - 1, r, q + 1, m - 1);
    }
  }

  /** The padded row: reasoning, its tokens and the slot flags, extended alike. */
  ghost predicate PaddedRow(
    padded: seq<real>, paddedIds: seq<nat>, ones: seq<bool>, reason: seq<real>, ids: seq<nat>, pad: nat) {
    |padded| == |paddedIds| == |ones| >= |reason| == |ids|
    && padded[..|reason|] == reason
    && (forall i | 0 <= i < |ones| :: ones[i] <==> i < |ids|)
    && (forall i | 0 <= i < |paddedIds| :: paddedIds[i] == if i < |ids| then ids[i] else pad)
  }

  lemma SameSlice(padded: seq<real>, reason: seq<real>, lo: nat, hi: nat)
    requires lo <= hi <= |reason| <= |padded| && padded[..|reason|] == reason
    ensures padded[lo..hi] == reason[lo..hi]
  {
    forall i | lo <= i < hi ensures padded[i] == reason[i] {
      assert padded[..|reason|][i] == reason[i];
    }
  }

  /** One group of slots: the masked sum over the group's norm, and a label drawn from any of the slots. */
  method PoolGroup(padded: seq<real>, paddedIds: seq<nat>, ones: seq<bool>, at: nat, r: nat, s: Settings,
                   ghost reason: seq<real>, ghost ids: seq<nat>)
    returns (value: real, drawn: nat)
    requires PaddedRow(padded, paddedIds, ones, reason, ids, s.pad) && Sound(s) && r > 0
    requires at < |ids| && at + r <= |padded|
    ensures var hi := Min(at + r, |ids|);
      && Divisor(hi - at, s) != 0.0 && value == PoolOne(reason[at..hi], s)
      && DrawnFrom(drawn, ids[at..hi], r, s.pad)
  {
    hide SumOf, DrawnFrom;
    var sum, count := GroupSum(padded, ones, at, r, |ids|);
    SameSlice(padded, reason, at, Min(at + r, |ids|));
    value := sum / (s.norm(count) + EPS);
    var sel: nat :| sel < r;
    drawn := paddedIds[at + sel];
    DrawnSlot(ids, paddedIds, at, sel, r, s.pad);
  }

  /** The groups of slots in turn. */
  method PoolSlots(padded: seq<real>, paddedIds: seq<nat>, ones: seq<bool>, k: nat, r: nat, s: Settings,
                   ghost reason: seq<real>, ghost ids: seq<nat>)
    returns (comp: seq<real>, drawn: seq<nat>)
    requires PaddedRow(padded, paddedIds, ones, reason, ids, s.pad) && Sound(s) && r > 0
    requires |Groups(reason, r)| == |Groups(ids, r)| == k && Slot(k, r) == |padded|
    ensures Poolable(Groups(reason, r), s) && comp == Pool(Groups(reason, r), s)
    ensures Drawn(drawn, Groups(ids, r), r, s.pad)
  {
    hide Groups, DrawnFrom, PaddedRow, Sound, Poolable, PoolOne, Divisor, Min, Rest, Drawn, Slot;
    GroupsPoolable(reason, r, s);
    ghost var groups, idGroups := Groups(reason, r), Groups(ids, r);
    ghost var pooled := Pool(groups, s);
    hide Pool;
    comp, drawn := [], [];
    var at: nat := 0;
    StartHere(padded, paddedIds, ones, reason, ids, r, s.pad);
    for j := 0 to k
      invariant at == Slot(j, r)
      invariant groups[j..] == Groups(Rest(reason, at), r) && idGroups[j..] == Groups(Rest(ids, at), r)
      invariant |comp| == j && forall i | 0 <= i < j :: comp[i] == pooled[i]
      invariant |drawn| == j && forall i | 0 <= i < j :: DrawnFrom(drawn[i], idGroups[i], r, s.pad)
    {
      NotDone(reason, at, r, groups, j);
      SlotsFit(r, j, k);
      FirstGroup(reason, at, r);
      FirstGroup(ids, at, r);
      var value, one := PoolGroup(padded, paddedIds, ones, at, r, s, reason, ids);
      comp := comp + [value];
      drawn := drawn + [one];
      at := at + r;
    }
    assert comp == pooled;
    AllDrawn(drawn, idGroups, r, s.pad);
  }

  lemma AllDrawn(labels: seq<nat>, groups: seq<seq<nat>>, r: nat, pad: nat)
    requires |labels| == |groups| && forall i | 0 <= i < |labels| :: DrawnFrom(labels[i], groups[i], r, pad)
    ensures Drawn(labels, groups, r, pad)
  {
    hide DrawnFrom;
  }

  lemma StartHere(
      padded: seq<real>, paddedIds: seq<nat>, ones: seq<bool>, reason: seq<real>, ids: seq<nat>, r: nat, pad: nat)
    requires PaddedRow(padded, paddedIds, ones, reason, ids, pad)
    ensures Slot(0, r) == 0 && Rest(reason, 0) == reason && Rest(ids, 0) == ids && |reason| == |ids|
  {
  }

  /** Pooling by padding to whole groups and masking equals pooling the groups themselves; each label is drawn
      from its group's slots, padded ones included. */
  method PoolReasoning(reason: seq<real>, ids: seq<nat>, r: nat, s: Settings) returns (comp: seq<real>, drawn: seq<nat>)
    requires |reason| == |ids| > 0 && r > 0 && Sound(s)
    ensures Poolable(Groups(reason, r), s) && comp == Pool(Groups(reason, r), s)
    ensures Drawn(drawn, Groups(ids, r), r, s.pad)
  {
    hide Ceil, Groups, Sound, Poolable, Missing, Drawn;
    GroupsTile(reason, r);
    SameCut(reason, ids, r);
    PaddedGroups(|reason|, r);
    var rem: nat := Missing(|reason|, r);
    var padded, paddedIds := reason + Copies(0.0, rem), ids + Copies(s.pad, rem);
    var ones := Copies(true, |reason|) + Copies(false, rem);
    var k := |padded| / r;
    comp, drawn := PoolSlots(padded, paddedIds, ones, k, r, s, reason, ids);
  }

  lemma DrawnSlot(ids: seq<nat>, paddedIds: seq<nat>, at: nat, sel: nat, r: nat, pad: nat)
    requires sel < r && at < |ids| && at + r <= |paddedIds| && |ids| <= |paddedIds|
    requires forall i | 0 <= i < |paddedIds| :: paddedIds[i] == if i < |ids| then ids[i] else pad
    ensures DrawnFrom(paddedIds[at + sel], ids[at..Min(at + r, |ids|)], r, pad)
  {
    if at + sel < |ids| {
      assert ids[at..Min(at + r, |ids|)][sel] == paddedIds[at + sel];
    }
  }

  lemma NotDone(reason: seq<real>, at: nat, r: nat, groups: seq<seq<real>>, j: nat)
    requires r > 0 && j < |groups| && groups[j..] == Groups(Rest(reason, at), r)
    ensures at < |reason|
  {
  }

  lemma SlotsFit(r: nat, j: nat, k: nat)
    requires r > 0 && j < k
    ensures Slot(j, r) + r <= Slot(k, r) && Slot(j + 1, r) == Slot(j, r) + r
  {
    var d := k - j;
    Scaled(r, d);
    assert r * k == r * j + r * d;
    assert r * j == j * r && r * k == k * r;
  }

  // ---- Rows ----

  /** One row: passed through, or prefix, pooled groups and answer with the mask of the supervised positions. */
  method CompressRow(ids: seq<nat>, emb: seq<real>, labels: seq<int>, valid: nat, r: nat, s: Settings)
    returns (row: Row)
    requires WellSized(ids, emb, labels, valid, r, s)
    ensures Compressed(row, ids, emb, labels, valid, r, s)
    ensures RowMeans(row, ids, emb, labels, valid, r, s)
  {
    hide Groups, Drawn, Ceil, Poolable, Pool, Sound, Divisor, RowMeans;
    var open, close := IndexOf(ids, s.open), IndexOf(ids, s.close);
    if open.None? || close.None? || close.value <= open.value + 1 || close.value >= valid {
      row := Row(emb[..valid], labels[..valid], Copies(false, valid));
      CompressedMeans(row, ids, emb, labels, valid, r, s);
      return;
    }
    var c := close.value;
    var start := open.value + 1;
    if s.newline.Some? && start < c && ids[start] == s.newline.value {
      start := start + 1;
    }
    if c - start == 0 {
      row := Row(emb[..start] + emb[c..valid], labels[..start] + labels[c..valid], Copies(false, start + (valid - c)));
      assert row == Row(emb[..valid], labels[..valid], Copies(false, valid));
      CompressedMeans(row, ids, emb, labels, valid, r, s);
      return;
    }
    var comp, drawn := PoolReasoning(emb[start..c], ids[start..c], r, s);
    GroupsTile(emb[start..c], r);
    var k := |comp|;
    var think := Copies(false, start - 1) + Copies(true, k + 1) + Copies(false, valid - c);
    row := Row(emb[..start] + comp + emb[c..valid], labels[..start] + drawn + labels[c..valid], think);
    CompressedMeans(row, ids, emb, labels, valid, r, s);
  }

  // ---- The batch ----

  datatype Batch = Batch(
    embeds: seq<seq<real>>, attn: seq<seq<bool>>, labels: seq<seq<int>>, think: seq<seq<bool>>, gold: seq<seq<real>>)

  /** One row at the front of its padded slots. */
  predicate Placed(b: Batch, i: nat, row: Row, width: nat) {
    i < |b.embeds| && i < |b.attn| && i < |b.labels| && i < |b.think| && i < |b.gold|
    && |row.embeds| == |row.labels| == |row.think| <= width
    && var more := width - |row.embeds|;
       b.embeds[i] == row.embeds + Copies(0.0, more) && b.gold[i] == b.embeds[i]
       && b.attn[i] == Copies(true, |row.embeds|) + Copies(false, more)
       && b.labels[i] == row.labels + Copies(-100, more)
       && b.think[i] == row.think + Copies(false, more)
  }

  lemma RowLengths(row: Row, ids: seq<nat>, emb: seq<real>, labels: seq<int>, valid: nat, r: nat, s: Settings)
    requires WellSized(ids, emb, labels, valid, r, s) && Compressed(row, ids, emb, labels, valid, r, s)
    ensures |row.embeds| == |row.labels| == |row.think|
  {
    hide Groups, Ceil, DrawnFrom;
    var split := SplitRow(ids, valid, s);
    if split.Some? {
      var span := split.value;
      var drawn :| Drawn(drawn, Groups(ids[span.start..span.close], r), r, s.pad)
        && row.labels == labels[..span.start] + drawn + labels[span.close..valid];
      GroupsTile(ids[span.start..span.close], r);
    }
  }

  predicate Aligned(ids: seq<seq<nat>>, emb: seq<seq<real>>, labels: seq<seq<int>>, masks: seq<seq<bool>>) {
    |ids| == |emb| == |labels| == |masks|
    && forall b | 0 <= b < |ids| :: |ids[b]| == |emb[b]| == |labels[b]| == |masks[b]|
  }

  lemma {:induction false} SlotsAtMost(mask: seq<bool>)
    ensures Slots(mask) <= |mask|
  {
    if mask != [] { SlotsAtMost(mask[..|mask| - 1]); }
  }

  ghost predicate RowOf(
    row: Row, ids: seq<nat>, emb: seq<real>, labels: seq<int>, mask: seq<bool>, r: nat, s: Settings) {
    WellSized(ids, emb, labels, Slots(mask), r, s) && Compressed(row, ids, emb, labels, Slots(mask), r, s)
    && RowMeans(row, ids, emb, labels, Slots(mask), r, s)
  }

  method CompressRows(ids: seq<seq<nat>>, emb: seq<seq<real>>, labels: seq<seq<int>>, masks: seq<seq<bool>>,
                      r: nat, s: Settings)
    returns (rows: seq<Row>)
    requires Aligned(ids, emb, labels, masks) && r > 0 && Sound(s)
    ensures |rows| == |ids|
    ensures forall b | 0 <= b < |ids| :: RowOf(rows[b], ids[b], emb[b], labels[b], masks[b], r, s)
  {
    hide Compressed, Slots, RowMeans;
    rows := [];
    for b := 0 to |ids|
      invariant |rows| == b
      invariant forall i | 0 <= i < b :: RowOf(rows[i], ids[i], emb[i], labels[i], masks[i], r, s)
    {
      SlotsAtMost(masks[b]);
      var row := CompressRow(ids[b], emb[b], labels[b], Slots(masks[b]), r, s);
      rows := rows + [row];
    }
  }

  method Widest(rows: seq<Row>) returns (width: nat)
    requires rows != []
    ensures forall i | 0 <= i < |rows| :: |rows[i].embeds| <= width
    ensures exists i :: 0 <= i < |rows| && |rows[i].embeds| == width
  {
    width := |rows[0].embeds|;
    for i := 0 to |rows|
      invariant forall j | 0 <= j < i :: |rows[j].embeds| <= width
      invariant exists j :: 0 <= j < |rows| && |rows[j].embeds| == width
    {
      if |rows[i].embeds| > width { width := |rows[i].embeds|; }
    }
  }

  /** Slot `b` of the batch holds the compressed form of row `b`, padded to the batch's width. */
  ghost predicate HoldsRow(batch: Batch, b: nat, width: nat, ids: seq<nat>, emb: seq<real>, labels: seq<int>,
                        mask: seq<bool>, r: nat, s: Settings)
  {
    exists row :: RowOf(row, ids, emb, labels, mask, r, s) && Placed(batch, b, row, width)
  }

  predicate Sized(batch: Batch, n: nat) {
    |batch.embeds| == |batch.attn| == |batch.labels| == |batch.think| == |batch.gold| == n
  }

  /** All rows rebuilt, then right padded to the longest: zeros, no attention, ignored labels, no supervision. */
  method Compress(ids: seq<seq<nat>>, emb: seq<seq<real>>, labels: seq<seq<int>>, masks: seq<seq<bool>>,
                  r: nat, s: Settings)
    returns (batch: Batch, width: nat)
    requires Aligned(ids, emb, labels, masks) && ids != [] && r > 0 && Sound(s)
    ensures Sized(batch, |ids|)
    ensures forall b | 0 <= b < |ids| :: HoldsRow(batch, b, width, ids[b], emb[b], labels[b], masks[b], r, s)
    ensures exists b :: 0 <= b < |ids| && batch.attn[b] == Copies(true, width)
  {
    hide RowOf;
    var rows := CompressRows(ids, emb, labels, masks, r, s);
    width := Widest(rows);
    batch := Batch([], [], [], [], []);
    for b := 0 to |rows|
      invariant Sized(batch, b)
      invariant forall i | 0 <= i < b :: Placed(batch, i, rows[i], width)
    {
      SameLengths(rows[b], ids[b], emb[b], labels[b], masks[b], r, s);
      var more := width - |rows[b].embeds|;
      var padded := rows[b].embeds + Copies(0.0, more);
      ghost var before := batch;
      batch := Batch(batch.embeds + [padded],
                     batch.attn + [Copies(true, |rows[b].embeds|) + Copies(false, more)],
                     batch.labels + [rows[b].labels + Copies(-100, more)],
                     batch.think + [rows[b].think + Copies(false, more)],
                     batch.gold + [padded]);
      forall i | 0 <= i < b ensures Placed(batch, i, rows[i], width) { assert Placed(before, i, rows[i], width); }
    }
    var b :| 0 <= b < |rows| && |rows[b].embeds| == width;
    assert Placed(batch, b, rows[b], width);
    assert batch.attn[b] == Copies(true, width);
  }

  lemma SameLengths(row: Row, ids: seq<nat>, emb: seq<real>, labels: seq<int>, mask: seq<bool>, r: nat, s: Settings)
    requires RowOf(row, ids, emb, labels, mask, r, s)
    ensures |row.embeds| == |row.labels| == |row.think|
  {
    RowLengths(row, ids, emb, labels, Slots(mask), r, s);
  }
}
