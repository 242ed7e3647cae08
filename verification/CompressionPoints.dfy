/** A compressed row slot by slot, from the first occurrences of the tags. */
module CompressionPoints {
  import opened Sequences
  import opened Wrappers
  import opened AudioLengths
  import opened Compression

  ghost predicate FirstAt(ids: seq<nat>, x: nat, i: nat) {
    i < |ids| && ids[i] == x && forall j | 0 <= j < i :: ids[j] != x
  }

  /** The reasoning runs from `start` to the first closing tag `c`: behind the first opening tag and the prompt's
      newline, if that comes next; there is some, and the closing tag is attended. */
  ghost predicate SplitsAt(ids: seq<nat>, valid: nat, s: Settings, start: nat, c: nat) {
    exists o: nat :: FirstAt(ids, s.open, o) && FirstAt(ids, s.close, c) && o + 1 < c < valid && start < c
      && start == if s.newline == Some(ids[o + 1]) then o + 2 else o + 1
  }

  lemma FirstIs(ids: seq<nat>, x: nat, i: nat)
    ensures FirstAt(ids, x, i) <==> IndexOf(ids, x) == Some(i)
  {
    assert FirstAt(ids, x, i) ==> ids[i] in ids;
  }

  /** A row is split exactly there, and otherwise passed through. */
  lemma {:induction false} SplitIff(ids: seq<nat>, valid: nat, s: Settings, start: nat, c: nat)
    requires valid <= |ids|
    ensures SplitRow(ids, valid, s) == Some(Span(start, c)) <==> SplitsAt(ids, valid, s, start, c)
  {
    hide IndexOf;
    FirstIs(ids, s.close, c);
    if SplitRow(ids, valid, s) == Some(Span(start, c)) {
      var o := IndexOf(ids, s.open).value;
      FirstIs(ids, s.open, o);
      assert FirstAt(ids, s.open, o) && FirstAt(ids, s.close, c);
    }
    if SplitsAt(ids, valid, s, start, c) {
      var o: nat :| FirstAt(ids, s.open, o) && FirstAt(ids, s.close, c) && o + 1 < c < valid && start < c
        && start == if s.newline == Some(ids[o + 1]) then o + 2 else o + 1;
      FirstIs(ids, s.open, o);
    }
  }

  lemma {:induction false} SplitNone(ids: seq<nat>, valid: nat, s: Settings)
    requires valid <= |ids|
    ensures SplitRow(ids, valid, s) == None <==> forall start: nat, c: nat :: !SplitsAt(ids, valid, s, start, c)
  {
    hide SplitsAt;
    forall start: nat, c: nat
      ensures SplitRow(ids, valid, s) == Some(Span(start, c)) <==> SplitsAt(ids, valid, s, start, c) {
      SplitIff(ids, valid, s, start, c);
    }
    hide SplitRow;
    var split := SplitRow(ids, valid, s);
    if split.Some? { assert SplitsAt(ids, valid, s, split.value.start, split.value.close); }
  }

  // ---- Groups ----

  /** Where group `j` starts. */
  function Slot(j: nat, r: nat): nat {
    j * r
  }

  lemma SlotStep(j: nat, r: nat)
    ensures Slot(j + 1, r) == Slot(j, r) + r && Slot(0, r) == 0
  {
  }

  function Lesser(a: nat, b: nat): nat {
    if a < b then a else b
  }

  /** Group `j` is the `j`-th run of `r` tokens, or what is left of them. */
  lemma {:induction false} GroupAt<T>(x: seq<T>, r: nat, j: nat)
    requires r > 0 && j < |Groups(x, r)|
    ensures Slot(j, r) < |x|
    ensures Groups(x, r)[j] == x[Slot(j, r)..Lesser(Slot(j, r) + r, |x|)]
  {
    hide Slot;
    SlotStep(0, r);
    if j > 0 {
      SlotStep(j - 1, r);
      GroupAt(x[r..], r, j - 1);
      var lo := Slot(j - 1, r);
      assert x[r..] == x[r..|x|];
      SliceOfSlice(x, r, |x|, lo, Lesser(lo + r, |x| - r));
    }
  }

  // ---- Rows ----

  /** Slot `j` behind the prefix: the mean of the next `r` reasoning embeddings, or of the last ones, over the norm of
      their number; its label is one of their tokens, or padding where they are fewer than `r`. */
  ghost predicate PooledAt(row: Row, ids: seq<nat>, emb: seq<real>, start: nat, c: nat, r: nat, s: Settings, j: nat)
    requires start <= c <= |emb| == |ids| && start + j < |row.embeds| == |row.labels| && start + Slot(j, r) < c
  {
    var lo := start + Slot(j, r);
    var hi := Lesser(lo + r, c);
    && row.embeds[start + j] * (s.norm(hi - lo) + EPS) == SumOf(emb[lo..hi])
    && ((exists i :: lo <= i < hi && row.labels[start + j] == ids[i])
        || (hi - lo < r && row.labels[start + j] == s.pad))
  }

  /** The row rebuilt: prefix and answer as they were, `ceil(n / r)` pooled slots between them, supervised from the
      last prefix token to the last pooled slot. */
  ghost predicate Rebuilt(row: Row, ids: seq<nat>, emb: seq<real>, labels: seq<int>, valid: nat, r: nat, s: Settings,
                          start: nat, c: nat)
    requires |ids| == |emb| == |labels| && 1 <= start < c < valid <= |ids| && r > 0
  {
    var k := (c - start + r - 1) / r;
    && |row.embeds| == |row.labels| == |row.think| == start + k + valid - c
    && (forall t | 0 <= t < start :: row.embeds[t] == emb[t] && row.labels[t] == labels[t])
    && (forall j: nat | j < k :: start + Slot(j, r) < c && PooledAt(row, ids, emb, start, c, r, s, j))
    && (forall t | start + k <= t < |row.embeds| ::
          row.embeds[t] == emb[t - start - k + c] && row.labels[t] == labels[t - start - k + c])
    && (forall t | 0 <= t < |row.think| :: row.think[t] <==> start - 1 <= t < start + k)
  }

  predicate PassedThrough(row: Row, emb: seq<real>, labels: seq<int>, valid: nat)
    requires valid <= |emb| == |labels|
  {
    row.embeds == emb[..valid] && row.labels == labels[..valid]
    && |row.think| == valid && forall t | 0 <= t < valid :: !row.think[t]
  }

  /** What compression makes of a row. */
  ghost predicate RowMeans(row: Row, ids: seq<nat>, emb: seq<real>, labels: seq<int>, valid: nat, r: nat, s: Settings)
    requires |ids| == |emb| == |labels| && valid <= |ids| && r > 0
  {
    && (forall start: nat, c: nat | SplitsAt(ids, valid, s, start, c) ::
          1 <= start && Rebuilt(row, ids, emb, labels, valid, r, s, start, c))
    && ((forall start: nat, c: nat :: !SplitsAt(ids, valid, s, start, c)) ==> PassedThrough(row, emb, labels, valid))
  }

  lemma LatentAt(emb: seq<real>, span: Span, r: nat, s: Settings, j: nat)
    requires r > 0 && Sound(s) && span.start <= span.close <= |emb| && j < |Latents(emb, span, r, s)|
    ensures var lo := span.start + Slot(j, r); var hi := Lesser(lo + r, span.close);
      lo < hi && Latents(emb, span, r, s)[j] * (s.norm(hi - lo) + EPS) == SumOf(emb[lo..hi])
  {
    hide Groups, Slot, Ceil, SumOf;
    var reason := emb[span.start..span.close];
    GroupsPoolable(reason, r, s);
    GroupAt(reason, r, j);
    var lo := Slot(j, r);
    var hi := Lesser(lo + r, |reason|);
    SliceOfSlice(emb, span.start, span.close, lo, hi);
    PoolTimesDivisor(reason[lo..hi], s);
  }

  lemma LabelAt(ids: seq<nat>, span: Span, drawn: seq<nat>, r: nat, pad: nat, j: nat)
    requires r > 0 && span.start <= span.close <= |ids| && j < |drawn|
    requires Drawn(drawn, Groups(ids[span.start..span.close], r), r, pad)
    ensures var lo := span.start + Slot(j, r); var hi := Lesser(lo + r, span.close);
      lo < hi && ((exists i :: lo <= i < hi && drawn[j] == ids[i]) || (hi - lo < r && drawn[j] == pad))
  {
    hide Groups, Slot;
    var tokens := ids[span.start..span.close];
    GroupAt(tokens, r, j);
    var lo := Slot(j, r);
    var hi := Lesser(lo + r, |tokens|);
    SliceOfSlice(ids, span.start, span.close, lo, hi);
    assert DrawnFrom(drawn[j], tokens[lo..hi], r, pad);
    DrawnIn(ids, span.start + lo, span.start + hi, drawn[j]);
  }

  lemma PooledSlot(row: Row, ids: seq<nat>, emb: seq<real>, drawn: seq<nat>, span: Span, r: nat, s: Settings, j: nat)
    requires r > 0 && Sound(s) && span.start <= span.close <= |emb| == |ids|
    requires j < |Latents(emb, span, r, s)| && Drawn(drawn, Groups(ids[span.start..span.close], r), r, s.pad)
    requires span.start + j < |row.embeds| == |row.labels| && j < |drawn|
    requires row.embeds[span.start + j] == Latents(emb, span, r, s)[j] && row.labels[span.start + j] == drawn[j]
    ensures span.start + Slot(j, r) < span.close
    ensures PooledAt(row, ids, emb, span.start, span.close, r, s, j)
  {
    hide Groups, Slot, SumOf, Latents, Drawn;
    LatentAt(emb, span, r, s, j);
    LabelAt(ids, span, drawn, r, s.pad, j);
  }

  lemma DrawnIn(ids: seq<nat>, lo: nat, hi: nat, x: nat)
    requires lo <= hi <= |ids|
    ensures x in ids[lo..hi] ==> exists i :: lo <= i < hi && x == ids[i]
  {
    if x in ids[lo..hi] {
      var i :| 0 <= i < hi - lo && ids[lo..hi][i] == x;
      assert ids[lo + i] == x;
    }
  }

  lemma SliceOfSlice<T>(x: seq<T>, from: nat, to: nat, lo: nat, hi: nat)
    requires from <= to <= |x| && lo <= hi <= to - from
    ensures x[from..to][lo..hi] == x[from + lo..from + hi]
  {
    var a, b := x[from..to][lo..hi], x[from + lo..from + hi];
    assert |a| == |b| && forall i | 0 <= i < |a| :: a[i] == x[from + (lo + i)] == b[i];
  }

  lemma {:induction false} CompressedMeans(
      row: Row, ids: seq<nat>, emb: seq<real>, labels: seq<int>, valid: nat, r: nat, s: Settings)
    requires WellSized(ids, emb, labels, valid, r, s) && Compressed(row, ids, emb, labels, valid, r, s)
    ensures RowMeans(row, ids, emb, labels, valid, r, s)
  {
    hide SplitsAt, Groups, SumOf, Rebuilt;
    SplitNone(ids, valid, s);
    forall start: nat, c: nat | SplitsAt(ids, valid, s, start, c)
      ensures 1 <= start < c < valid && Rebuilt(row, ids, emb, labels, valid, r, s, start, c)
    {
      SplitIff(ids, valid, s, start, c);
      CompressedRebuilt(row, ids, emb, labels, valid, r, s, Span(start, c));
    }
  }

  lemma CompressedRebuilt(row: Row, ids: seq<nat>, emb: seq<real>, labels: seq<int>, valid: nat, r: nat, s: Settings,
                          span: Span)
    requires WellSized(ids, emb, labels, valid, r, s) && Compressed(row, ids, emb, labels, valid, r, s)
    requires SplitRow(ids, valid, s) == Some(span)
    ensures Rebuilt(row, ids, emb, labels, valid, r, s, span.start, span.close)
  {
    hide Groups, SumOf, PooledAt, Drawn, Slot;
    var start, c := span.start, span.close;
    var latents := Latents(emb, span, r, s);
    var k := Ceil(c - start, r);
    var drawn :| Drawn(drawn, Groups(ids[start..c], r), r, s.pad)
      && row.labels == labels[..start] + drawn + labels[c..valid];
    DrawnLength(drawn, ids[start..c], r, s.pad);
    hide SplitRow, Latents, Ceil;
    forall j: nat | j < k ensures start + Slot(j, r) < c && PooledAt(row, ids, emb, start, c, r, s, j) {
      PooledSlot(row, ids, emb, drawn, span, r, s, j);
    }
    assert k == (c - start + r - 1) / r by { CeilIs(c - start, r); }
  }

  lemma CeilIs(n: nat, r: nat)
    requires r > 0
    ensures Ceil(n, r) == (n + r - 1) / r
  {
  }

  lemma DrawnLength(drawn: seq<nat>, tokens: seq<nat>, r: nat, pad: nat)
    requires r > 0 && Drawn(drawn, Groups(tokens, r), r, pad)
    ensures |drawn| == Ceil(|tokens|, r)
  {
    GroupsTile(tokens, r);
  }
}
