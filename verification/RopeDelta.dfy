/** Positions of a padded batch, the delta kept for decoding, and the positions decoding then uses. */
module RopeDelta {
  import opened Sequences
  import opened Wrappers
  import opened AudioPacking
  import opened MediaRow
  import opened RopeIndex
  import opened RopePoints
  import opened RopeLoop

  /** `input_ids[mask]`: the attended tokens, in order. */
  function Attended<T>(tokens: seq<T>, mask: seq<bool>): (r: seq<T>)
    requires |tokens| == |mask|
    ensures |r| == Slots(mask)
  {
    if mask == [] then []
    else
      var k := |mask| - 1;
      Attended(tokens[..k], mask[..k]) + if mask[k] then [tokens[k]] else []
  }

  function Pads(mask: seq<bool>): nat {
    if mask == [] then 0 else Pads(mask[..|mask| - 1]) + if mask[|mask| - 1] then 0 else 1
  }

  lemma {:induction false} PadsAndSlots(mask: seq<bool>)
    ensures Pads(mask) + Slots(mask) == |mask|
  {
    if mask != [] { PadsAndSlots(mask[..|mask| - 1]); }
  }

  /** Attended token `i` is the one with as many attended tokens before it. */
  lemma {:induction false} AttendedAt<T>(tokens: seq<T>, mask: seq<bool>, i: nat)
    requires |tokens| == |mask| && i < |mask| && mask[i]
    ensures Slots(mask[..i]) < |Attended(tokens, mask)| && Attended(tokens, mask)[Slots(mask[..i])] == tokens[i]
  {
    var k := |mask| - 1;
    if i < k {
      AttendedAt(tokens[..k], mask[..k], i);
      assert mask[..k][..i] == mask[..i];
    }
  }

  /** The segments of one row, and the text after them. */
  datatype Shape = Shape(items: seq<Item>, tail: seq<Token>)

  /** The inputs consumed by all earlier rows of the batch. */
  function CursorAt(shapes: seq<Shape>, i: nat): Cursor
    requires i <= |shapes|
  {
    if i == 0 then Cursor(0, 0, 0) else CursorAfter(shapes[i - 1].items, CursorAt(shapes, i - 1))
  }

  /** The attended tokens of the row are the tokens of its shape, wherever the padding is. */
  ghost predicate WellFormed(tokens: seq<Token>, mask: seq<bool>, shape: Shape, cfg: Config, c: Cursor) {
    |tokens| == |mask| && Slots(mask) > 0 && Plain(shape.tail) && GoodItems(shape.items, cfg.inp, c)
    && Attended(tokens, mask) == RowTokens(shape.items, shape.tail, cfg.inp, c)
  }

  ghost function RowPositions(shape: Shape, cfg: Config, c: Cursor): seq<Pos>
    requires GoodItems(shape.items, cfg.inp, c)
  {
    Positions(Walk(shape.items, |shape.tail|, cfg, c, []))
  }

  ghost predicate RowDone(row: seq<Pos>, delta: real, mask: seq<bool>, shape: Shape, cfg: Config, c: Cursor) {
    GoodItems(shape.items, cfg.inp, c)
    && var found := RowPositions(shape, cfg, c);
       |found| == Slots(mask) > 0 && row == Scatter(mask, Copies(Diagonal(0.0), |mask|), found)
       && delta == BlockMax(found) + 1.0 - |found| as real
       && (cfg.perSecond >= 0.0 ==> Laid(found, 0.0, shape.items, |shape.tail|, cfg, c))
  }

  lemma CursorStep(shapes: seq<Shape>, i: nat)
    requires i <= |shapes|
    ensures CursorAt(shapes, i)
      == if i == 0 then Cursor(0, 0, 0) else CursorAfter(shapes[i - 1].items, CursorAt(shapes, i - 1))
  {
  }

  /** One row: positions of the attended tokens, scattered over zeros, and the row's delta. */
  method PlaceRow(row: seq<Token>, mask: seq<bool>, zeros: seq<Pos>, cfg: Config, c0: Cursor, ghost shape: Shape)
    returns (placed: seq<Pos>, delta: real, c: Cursor)
    requires WellFormed(row, mask, shape, cfg, c0) && zeros == Copies(Diagonal(0.0), |mask|)
    ensures RowDone(placed, delta, mask, shape, cfg, c0) && c == CursorAfter(shape.items, c0)
  {
    hide Walk, Positions, RowTokens, GoodItems, Slots, Scatter, BlockMax, Laid;
    var tokens := Attended(row, mask);
    var blocks;
    blocks, c := RopeLoop.RopeRow(tokens, cfg, c0, shape.items, shape.tail);
    var found := Positions(blocks);
    placed := Scatter(mask, zeros, found);
    delta := BlockMax(found) + 1.0 - |tokens| as real;
  }

  /** Rows share the batch's media inputs: each row takes up where the one before stopped. Attended tokens get
      the row's positions in order, padding keeps zero. */
  method RopeBatch(rows: seq<seq<Token>>, masks: seq<seq<bool>>, cfg: Config, ghost shapes: seq<Shape>)
    returns (positions: array<seq<Pos>>, deltas: seq<real>)
    requires |rows| == |masks| == |shapes|
    requires forall i | 0 <= i < |rows| :: WellFormed(rows[i], masks[i], shapes[i], cfg, CursorAt(shapes, i))
    ensures fresh(positions) && positions.Length == |deltas| == |rows|
    ensures forall i | 0 <= i < |rows| ::
      RowDone(positions[i], deltas[i], masks[i], shapes[i], cfg, CursorAt(shapes, i))
  {
    hide WellFormed, RowDone, CursorAt;
    CursorStep(shapes, 0);
    positions := new seq<Pos>[|rows|];
    for i := 0 to |rows|
      invariant forall j | 0 <= j < i :: positions[j] == Copies(Diagonal(0.0), |masks[j]|)
    {
      positions[i] := Copies(Diagonal(0.0), |masks[i]|);
    }
    deltas := [];
    var c := Cursor(0, 0, 0);
    for i := 0 to |rows|
      invariant c == CursorAt(shapes, i) && |deltas| == i
      invariant forall j | 0 <= j < i :: RowDone(positions[j], deltas[j], masks[j], shapes[j], cfg, CursorAt(shapes, j))
      invariant forall j | i <= j < |rows| :: positions[j] == Copies(Diagonal(0.0), |masks[j]|)
    {
      assert WellFormed(rows[i], masks[i], shapes[i], cfg, c);
      var placed, delta, next := PlaceRow(rows[i], masks[i], positions[i], cfg, c, shapes[i]);
      positions[i] := placed;
      CursorStep(shapes, i + 1);
      deltas := deltas + [delta];
      c := next;
    }
  }

  // ---- The text-only branch ----

  /** Running count less one; padding is filled with 1. */
  function TextPositions(mask: seq<bool>): (r: seq<int>)
    ensures |r| == |mask|
  {
    if mask == [] then []
    else var k := |mask| - 1; TextPositions(mask[..k]) + [if mask[k] then Slots(mask) - 1 else 1]
  }

  function MaxOf(s: seq<int>): (r: int)
    requires s != []
    ensures r in s && forall i | 0 <= i < |s| :: s[i] <= r
  {
    if |s| == 1 then s[0] else var m := MaxOf(s[..|s| - 1]); if s[|s| - 1] > m then s[|s| - 1] else m
  }

  function TextDelta(mask: seq<bool>): int
    requires mask != []
  {
    MaxOf(TextPositions(mask)) + 1 - Slots(mask)
  }

  /** An attended token's position is the number of attended tokens before it. */
  lemma {:induction false} TextRank(mask: seq<bool>, i: nat)
    requires i < |mask|
    ensures TextPositions(mask)[i] == if mask[i] then Slots(mask[..i]) else 1
    ensures mask[i] ==> Slots(mask[..i]) < Slots(mask)
  {
    var k := |mask| - 1;
    if i < k {
      TextRank(mask[..k], i);
      assert mask[..k][..i] == mask[..i];
    }
  }

  lemma {:induction false} LastSlot(mask: seq<bool>) returns (i: nat)
    requires Slots(mask) > 0
    ensures i < |mask| && mask[i] && Slots(mask[..i]) == Slots(mask) - 1
  {
    var k := |mask| - 1;
    if mask[k] {
      i := k;
    } else {
      i := LastSlot(mask[..k]);
      assert mask[..k][..i] == mask[..i];
    }
  }

  lemma {:induction false} SomePad(mask: seq<bool>)
    ensures false in mask <==> Pads(mask) > 0
  {
    if mask != [] {
      SomePad(mask[..|mask| - 1]);
      assert mask == mask[..|mask| - 1] + [mask[|mask| - 1]];
    }
  }

  /** The largest position of a text-only row: padding counts as 1. */
  lemma {:induction false} TextMax(mask: seq<bool>)
    requires mask != []
    ensures MaxOf(TextPositions(mask)) == if Pads(mask) > 0 && Slots(mask) < 2 then 1 else Slots(mask) - 1
  {
    hide Slots, Pads, TextPositions;
    SomePad(mask);
    PadsAndSlots(mask);
    var s := TextPositions(mask);
    forall i | 0 <= i < |mask| ensures s[i] <= if mask[i] then Slots(mask) - 1 else 1 { TextRank(mask, i); }
    if Pads(mask) > 0 {
      var p :| 0 <= p < |mask| && !mask[p];
      TextRank(mask, p);
    }
    if Slots(mask) > 0 {
      var l := LastSlot(mask);
      TextRank(mask, l);
    }
    var best :| 0 <= best < |s| && s[best] == MaxOf(s);
  }

  method TextBatch(masks: seq<seq<bool>>) returns (positions: array<seq<Pos>>, deltas: seq<real>)
    requires forall i | 0 <= i < |masks| :: masks[i] != []
    ensures fresh(positions) && positions.Length == |deltas| == |masks|
    ensures forall i | 0 <= i < |masks| :: TextDone(positions[i], deltas[i], masks[i])
  {
    hide TextPositions, MaxOf, Slots;
    positions := new seq<Pos>[|masks|];
    deltas := [];
    for i := 0 to |masks|
      invariant |deltas| == i && forall j | 0 <= j < i :: TextDone(positions[j], deltas[j], masks[j])
    {
      positions[i] := Diagonals(TextPositions(masks[i]));
      deltas := deltas + [TextDelta(masks[i]) as real];
    }
  }

  function Diagonals(ks: seq<int>): (r: seq<Pos>)
    ensures |r| == |ks| && forall i | 0 <= i < |r| :: r[i] == Diagonal(ks[i] as real)
  {
    seq(|ks|, i requires 0 <= i < |ks| => Diagonal(ks[i] as real))
  }

  predicate TextDone(row: seq<Pos>, delta: real, mask: seq<bool>) {
    mask != [] && row == Diagonals(TextPositions(mask)) && delta == TextDelta(mask) as real
  }

  // ---- Decoding ----

  /** Positions of newly fed tokens: consecutive from the cached length plus the stored delta. */
  function DecodeRow(fed: nat, past: nat, delta: real): (r: seq<Pos>)
    ensures |r| == fed
  {
    Line(fed, past as real + delta)
  }

  /** A prefilled row, its positions and its delta, in the branch the batch takes. */
  ghost predicate Placed(
    grids: bool, row: seq<Pos>, delta: real, mask: seq<bool>, shape: Shape, cfg: Config, c: Cursor)
  {
    if grids then RowDone(row, delta, mask, shape, cfg, c) else TextDone(row, delta, mask)
  }

  /** What the source asks of a row before its first forward pass. */
  ghost predicate Ready(grids: bool, row: seq<Token>, mask: seq<bool>, shape: Shape, cfg: Config, c: Cursor) {
    |row| == |mask| > 0 && (grids ==> WellFormed(row, mask, shape, cfg, c))
  }

  /** The largest position of a prefilled row. */
  ghost function Top(grids: bool, mask: seq<bool>, shape: Shape, cfg: Config, c: Cursor): real
    requires mask != [] && (grids ==> GoodItems(shape.items, cfg.inp, c) && RowPositions(shape, cfg, c) != [])
  {
    if grids then BlockMax(RowPositions(shape, cfg, c)) else MaxOf(TextPositions(mask)) as real
  }

  /** `row` is the position of the `k`-th token decoded after a prefill: right behind the largest one. */
  ghost predicate Follows(
    row: seq<Pos>, k: nat, grids: bool, mask: seq<bool>, shape: Shape, cfg: Config, c: Cursor)
  {
    && mask != [] && (grids ==> GoodItems(shape.items, cfg.inp, c) && RowPositions(shape, cfg, c) != [])
    && row == [Diagonal(Top(grids, mask, shape, cfg, c) + 1.0 + k as real)]
  }

  /** With any padding, in either branch: after `k` steps the cache holds the padded row and `k` tokens. */
  lemma {:induction false} DecodeFollows(
      k: nat, grids: bool, row: seq<Pos>, kept: real, mask: seq<bool>, shape: Shape, cfg: Config, c: Cursor)
    requires mask != [] && Placed(grids, row, kept + Pads(mask) as real, mask, shape, cfg, c)
    ensures Follows(DecodeRow(1, |mask| + k, kept), k, grids, mask, shape, cfg, c)
  {
    hide RowPositions, GoodItems, BlockMax, MaxOf, TextPositions, Pads, Slots, Scatter, DecodeRow;
    PadsAndSlots(mask);
    var top := Top(grids, mask, shape, cfg, c);
    DecodeOne(|mask| + k, kept, top + 1.0 + k as real);
  }

  lemma DecodeOne(past: nat, delta: real, x: real)
    ensures DecodeRow(1, past, delta) == [Diagonal(x)] <==> past as real + delta == x
  {
    assert DecodeRow(1, past, delta)[0] == Diagonal(past as real + delta);
  }

  /** A text-only row decodes on from its attended tokens exactly when it has no padding or at least two of them. */
  lemma {:induction false} TextDecodeIff(mask: seq<bool>)
    requires mask != []
    ensures DecodeRow(1, |mask|, TextDelta(mask) as real - Pads(mask) as real) == [Diagonal(Slots(mask) as real)]
      <==> Pads(mask) == 0 || Slots(mask) >= 2
  {
    hide DecodeRow, Pads, Slots, TextDelta;
    TextDeltaIff(mask);
    PadsAndSlots(mask);
    DecodeAfter(|mask|, Slots(mask), Pads(mask), TextDelta(mask));
  }

  lemma TextDeltaIff(mask: seq<bool>)
    requires mask != []
    ensures TextDelta(mask) == 0 <==> Pads(mask) == 0 || Slots(mask) >= 2
  {
    hide Pads, Slots, MaxOf, TextPositions;
    TextMax(mask);
    PadsAndSlots(mask);
  }

  /** A padded row of one token fails the condition: its decoding leaves out position 1. */
  lemma TextDecodeExample()
    ensures var mask := [true, false];
      !(Pads(mask) == 0 || Slots(mask) >= 2)
      && DecodeRow(1, |mask|, TextDelta(mask) as real - Pads(mask) as real) == [Diagonal(2.0)] && Slots(mask) == 1
  {
    var mask := [true, false];
    assert mask[..1] == [true] && [true][..0] == [];
    PadsAndSlots(mask);
    TextMax(mask);
    hide MaxOf, TextPositions, DecodeRow;
    DecodeOne(2, 0.0, 2.0);
  }

  lemma DecodeAfter(past: nat, n: nat, pads: nat, delta: int)
    requires past == n + pads
    ensures DecodeRow(1, past, delta as real - pads as real) == [Diagonal(n as real)] <==> delta == 0
  {
    hide DecodeRow;
    assert past as real + (delta as real - pads as real) == (n + delta) as real;
    DecodeOne(past, delta as real - pads as real, n as real);
  }

  /** What the model keeps: the row's delta less its padding. */
  function Stored(deltas: seq<real>, masks: seq<seq<bool>>): (r: seq<real>)
    requires |deltas| == |masks|
    ensures |r| == |deltas| && forall i | 0 <= i < |r| :: r[i] + Pads(masks[i]) as real == deltas[i]
  {
    seq(|deltas|, i requires 0 <= i < |deltas| => deltas[i] - Pads(masks[i]) as real)
  }

  function DecodeRows(rows: seq<seq<Token>>, past: nat, deltas: seq<real>): (r: seq<seq<Pos>>)
    requires |rows| == |deltas|
    ensures |r| == |rows| && forall i | 0 <= i < |r| :: r[i] == DecodeRow(|rows[i]|, past, deltas[i])
  {
    seq(|rows|, i requires 0 <= i < |rows| => DecodeRow(|rows[i]|, past, deltas[i]))
  }

  /** The positions a model keeps between calls. */
  class Positioner {
    var ropeDeltas: Option<seq<real>>

    constructor ()
      ensures ropeDeltas == None
    {
      ropeDeltas := None;
    }

    /** A first call stores, per row, the largest position plus one less the whole padded length; later calls
        leave it and number the fed tokens from it. A batch without image or video grids is placed as text,
        audio tokens included. */
    method Forward(
        rows: seq<seq<Token>>, masks: seq<seq<bool>>, past: nat, cfg: Config, grids: bool, ghost shapes: seq<Shape>)
      returns (positions: seq<seq<Pos>>)
      requires past == 0 || ropeDeltas == None ==>
        |rows| == |masks| == |shapes|
        && forall i | 0 <= i < |rows| :: Ready(grids, rows[i], masks[i], shapes[i], cfg, CursorAt(shapes, i))
      requires past > 0 && ropeDeltas.Some? ==> |ropeDeltas.value| == |rows|
      modifies this
      ensures ropeDeltas.Some? && |ropeDeltas.value| == |positions| == |rows|
      ensures past == 0 || old(ropeDeltas) == None ==>
        forall i | 0 <= i < |rows| :: Placed(
          grids, positions[i], ropeDeltas.value[i] + Pads(masks[i]) as real,
          masks[i], shapes[i], cfg, CursorAt(shapes, i))
      ensures past > 0 && old(ropeDeltas).Some? ==>
        && ropeDeltas == old(ropeDeltas)
        && forall i | 0 <= i < |rows| :: positions[i] == DecodeRow(|rows[i]|, past, ropeDeltas.value[i])
    {
      hide WellFormed, RowDone, Slots, Pads, DecodeRow, CursorAt, Stored, DecodeRows, TextDone;
      if past == 0 || ropeDeltas == None {
        var placed, deltas;
        if grids {
          placed, deltas := RopeBatch(rows, masks, cfg, shapes);
        } else {
          placed, deltas := TextBatch(masks);
        }
        positions := placed[..];
        ropeDeltas := Some(Stored(deltas, masks));
        assert forall i | 0 <= i < |rows| :: positions[i] == placed[i];
      } else {
        positions := DecodeRows(rows, past, ropeDeltas.value);
      }
    }

    /** A run: one prefill of a padded batch, then one token per row and step on the growing cache. Whatever
        the padding, each row's decoded tokens follow its largest prefill position one by one. */
    method Run(rows: seq<seq<Token>>, masks: seq<seq<bool>>, width: nat, cfg: Config, grids: bool,
               fed: seq<seq<seq<Token>>>, ghost shapes: seq<Shape>)
      returns (prefill: seq<seq<Pos>>, decoded: seq<seq<seq<Pos>>>)
      requires |rows| == |masks| == |shapes| && width > 0
      requires forall i | 0 <= i < |rows| ::
        |masks[i]| == width && Ready(grids, rows[i], masks[i], shapes[i], cfg, CursorAt(shapes, i))
      requires forall k | 0 <= k < |fed| :: |fed[k]| == |rows| && forall i | 0 <= i < |rows| :: |fed[k][i]| == 1
      modifies this
      ensures |prefill| == |rows| && |decoded| == |fed|
      ensures ropeDeltas.Some? && |ropeDeltas.value| == |rows|
      ensures forall i | 0 <= i < |rows| :: Placed(
        grids, prefill[i], ropeDeltas.value[i] + Pads(masks[i]) as real, masks[i], shapes[i], cfg, CursorAt(shapes, i))
      ensures forall k | 0 <= k < |fed| ::
        && |decoded[k]| == |rows|
        && forall i | 0 <= i < |rows| ::
             Follows(decoded[k][i], k, grids, masks[i], shapes[i], cfg, CursorAt(shapes, i))
    {
      hide Ready, Placed, Follows, DecodeRow, CursorAt;
      prefill := Forward(rows, masks, 0, cfg, grids, shapes);
      decoded := [];
      ghost var kept := ropeDeltas;
      for k := 0 to |fed|
        invariant |decoded| == k && ropeDeltas == kept
        invariant forall j | 0 <= j < k ::
          && |decoded[j]| == |rows|
          && forall i | 0 <= i < |rows| ::
               Follows(decoded[j][i], j, grids, masks[i], shapes[i], cfg, CursorAt(shapes, i))
      {
        var step := Forward(fed[k], masks, width + k, cfg, grids, shapes);
        forall i | 0 <= i < |rows|
          ensures Follows(step[i], k, grids, masks[i], shapes[i], cfg, CursorAt(shapes, i))
        {
          DecodeFollows(k, grids, prefill[i], kept.value[i], masks[i], shapes[i], cfg, CursorAt(shapes, i));
        }
        decoded := decoded + [step];
      }
    }
  }
}
