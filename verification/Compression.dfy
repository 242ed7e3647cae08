/** Compression of the think segment of one row: verbatim prefix, pooled groups, verbatim answer. */
module Compression {
  import opened Sequences
  import opened Wrappers
  import opened AudioLengths

  /** `norm` is the divisor for a group of the given size: the size itself, or its square root. */
  datatype Settings = Settings(open: nat, close: nat, newline: Option<nat>, pad: nat, norm: nat -> real)

  const EPS: real := 0.00001

  ghost predicate Sound(s: Settings) {
    forall m: nat | m >= 1 :: s.norm(m) > 0.0
  }

  /** `row.index(x)`; None stands for the raised ValueError. */
  function IndexOf(row: seq<nat>, x: nat): (r: Option<nat>)
    ensures r.Some? ==> r.value < |row| && row[r.value] == x
    ensures r.Some? ==> forall j | 0 <= j < r.value :: row[j] != x
    ensures r.None? ==> x !in row
  {
    if row == [] then None
    else if row[0] == x then Some(0)
    else match IndexOf(row[1..], x)
      case None => None
      case Some(i) => assert forall j | 1 <= j < i + 1 :: row[j] == row[1..][j - 1]; Some(i + 1)
  }

  /** The reasoning tokens to compress: from `start` up to the closing tag. */
  datatype Span = Span(start: nat, close: nat)

  /** None: the row is passed through. The newline the prompt ends with stays in the prefix. */
  function SplitRow(ids: seq<nat>, valid: nat, s: Settings): (r: Option<Span>)
    requires valid <= |ids|
    ensures r.Some? ==> 1 <= r.value.start < r.value.close < valid && ids[r.value.close] == s.close
  {
    match (IndexOf(ids, s.open), IndexOf(ids, s.close))
    case (Some(o), Some(c)) =>
      if c <= o + 1 || c >= valid then None
      else
        var start := if s.newline == Some(ids[o + 1]) then o + 2 else o + 1;
        if start == c then None else Some(Span(start, c))
    case _ => None
  }

  // ---- Groups ----

  /** Consecutive groups of `r`, the last possibly shorter. */
  function Groups<T>(x: seq<T>, r: nat): seq<seq<T>>
    requires r > 0
  {
    if x == [] then [] else if |x| <= r then [x] else [x[..r]] + Groups(x[r..], r)
  }

  function Joined<T>(groups: seq<seq<T>>): seq<T> {
    if groups == [] then [] else groups[0] + Joined(groups[1..])
  }

  /** Every token is in exactly one group, in order; there are ceil(n / r) groups. */
  lemma {:induction false} GroupsTile<T>(x: seq<T>, r: nat)
    requires r > 0
    ensures Joined(Groups(x, r)) == x && |Groups(x, r)| == Ceil(|x|, r)
  {
    hide Ceil;
    if |x| > r {
      GroupsTile(x[r..], r);
      CeilStep(|x|, r);
      assert x == x[..r] + x[r..];
      assert ([x[..r]] + Groups(x[r..], r))[1..] == Groups(x[r..], r);
    } else if x != [] {
      CeilOne(|x|, r);
      assert [x][1..] == [];
    } else {
      CeilNone(r);
    }
  }

  lemma CeilNone(r: nat)
    requires r > 0
    ensures Ceil(0, r) == 0
  {
    DivUnique(r - 1, r, 0, r - 1);
  }

  /** Groups hold 1 to r tokens and only the last may be short. */
  lemma {:induction false} GroupSizes<T>(x: seq<T>, r: nat, j: nat)
    requires r > 0 && j < |Groups(x, r)|
    ensures 1 <= |Groups(x, r)[j]| <= r
    ensures j < |Groups(x, r)| - 1 ==> |Groups(x, r)[j]| == r
  {
    if |x| > r && j > 0 { GroupSizes(x[r..], r, j - 1); }
  }

  lemma {:induction false} SameCut<A, B>(x: seq<A>, y: seq<B>, r: nat)
    requires r > 0 && |x| == |y|
    ensures |Groups(x, r)| == |Groups(y, r)|
  {
    if |x| > r { SameCut(x[r..], y[r..], r); }
  }

  function Divisor(size: nat, s: Settings): real {
    s.norm(size) + EPS
  }

  function PoolOne(g: seq<real>, s: Settings): real
    requires Divisor(|g|, s) != 0.0
  {
    SumOf(g) / Divisor(|g|, s)
  }

  ghost predicate Poolable(groups: seq<seq<real>>, s: Settings) {
    forall j | 0 <= j < |groups| :: Divisor(|groups[j]|, s) != 0.0
  }

  function Pool(groups: seq<seq<real>>, s: Settings): (r: seq<real>)
    requires Poolable(groups, s)
    ensures |r| == |groups| && forall j | 0 <= j < |r| :: r[j] == PoolOne(groups[j], s)
  {
    seq(|groups|, j requires 0 <= j < |groups| => PoolOne(groups[j], s))
  }

  lemma GroupsPoolable(x: seq<real>, r: nat, s: Settings)
    requires r > 0 && Sound(s)
    ensures Poolable(Groups(x, r), s)
  {
    hide Groups;
    forall j | 0 <= j < |Groups(x, r)| ensures Divisor(|Groups(x, r)[j]|, s) != 0.0 { GroupSizes(x, r, j); }
  }

  /** The pooled values weighted by their divisors. */
  function Weighted(groups: seq<seq<real>>, pooled: seq<real>, s: Settings): real
    requires |groups| == |pooled|
  {
    if groups == [] then 0.0
    else pooled[0] * Divisor(|groups[0]|, s) + Weighted(groups[1..], pooled[1..], s)
  }

  lemma {:induction false} SumOfConcat(a: seq<real>, b: seq<real>)
    ensures SumOf(a + b) == SumOf(a) + SumOf(b)
  {
    if b == [] {
      assert a + b == a;
    } else {
      assert (a + b)[..|a + b| - 1] == a + b[..|b| - 1];
      SumOfConcat(a, b[..|b| - 1]);
    }
  }

  lemma PoolTimesDivisor(g: seq<real>, s: Settings)
    requires Divisor(|g|, s) != 0.0
    ensures PoolOne(g, s) * Divisor(|g|, s) == SumOf(g)
  {
  }

  lemma PoolTail(groups: seq<seq<real>>, s: Settings)
    requires groups != [] && Poolable(groups, s)
    ensures Divisor(|groups[0]|, s) != 0.0 && Poolable(groups[1..], s)
    ensures Pool(groups, s)[0] == PoolOne(groups[0], s) && Pool(groups, s)[1..] == Pool(groups[1..], s)
  {
    hide Divisor, PoolOne;
  }

  /** Nothing is lost: weighting each pooled value by its divisor gives back the sum of the reasoning. */
  lemma {:induction false} PoolConserves(groups: seq<seq<real>>, s: Settings)
    requires Poolable(groups, s)
    ensures Weighted(groups, Pool(groups, s), s) == SumOf(Joined(groups))
  {
    hide Divisor, PoolOne, Pool, Poolable;
    if groups == [] {
      assert SumOf([]) == 0.0;
    } else {
      PoolTail(groups, s);
      PoolConserves(groups[1..], s);
      PoolTimesDivisor(groups[0], s);
      SumOfConcat(groups[0], Joined(groups[1..]));
    }
  }

  /** A drawn label: a token of the group, or padding when the group is short, since padded slots keep a small
      probability. */
  ghost predicate DrawnFrom(drawn: nat, group: seq<nat>, r: nat, pad: nat) {
    drawn in group || (|group| < r && drawn == pad)
  }

  ghost predicate Drawn(labels: seq<nat>, groups: seq<seq<nat>>, r: nat, pad: nat) {
    |labels| == |groups| && forall j | 0 <= j < |groups| :: DrawnFrom(labels[j], groups[j], r, pad)
  }

  // ---- The compressed row ----

  datatype Row = Row(embeds: seq<real>, labels: seq<int>, think: seq<bool>)

  ghost predicate WellSized(ids: seq<nat>, emb: seq<real>, labels: seq<int>, valid: nat, r: nat, s: Settings) {
    |ids| == |emb| == |labels| && valid <= |ids| && r > 0 && Sound(s)
  }

  /** The pooled embeddings of the row's reasoning. */
  function Latents(emb: seq<real>, span: Span, r: nat, s: Settings): (x: seq<real>)
    requires r > 0 && Sound(s) && span.start <= span.close <= |emb|
    ensures |x| == Ceil(span.close - span.start, r)
  {
    GroupsPoolable(emb[span.start..span.close], r, s);
    GroupsTile(emb[span.start..span.close], r);
    Pool(Groups(emb[span.start..span.close], r), s)
  }

  ghost predicate Compressed(row: Row, ids: seq<nat>, emb: seq<real>, labels: seq<int>, valid: nat, r: nat, s: Settings)
    requires WellSized(ids, emb, labels, valid, r, s)
  {
    match SplitRow(ids, valid, s)
    case None => row == Row(emb[..valid], labels[..valid], Copies(false, valid))
    case Some(span) =>
      var k := Ceil(span.close - span.start, r);
      row.embeds == emb[..span.start] + Latents(emb, span, r, s) + emb[span.close..valid]
      && (exists drawn ::
            Drawn(drawn, Groups(ids[span.start..span.close], r), r, s.pad)
            && row.labels == labels[..span.start] + drawn + labels[span.close..valid])
      && row.think == Copies(false, span.start - 1) + Copies(true, k + 1) + Copies(false, valid - span.close)
  }
}
