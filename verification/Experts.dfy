/** Grouped mixture-of-experts dispatch against the plain per-token sum. */
module Experts {
  import opened Sequences

  /** Routing of a batch: every token names `slots` experts (repeats allowed) and a weight for each. */
  datatype Routing = Routing(experts: nat, slots: nat, index: seq<seq<nat>>, weights: seq<seq<real>>)

  ghost predicate Valid(r: Routing) {
    |r.index| == |r.weights|
    && forall t | 0 <= t < |r.index| ::
         |r.index[t]| == |r.weights[t]| == r.slots && forall p | 0 <= p < r.slots :: r.index[t][p] < r.experts
  }

  datatype Visit = Visit(slot: nat, token: nat)

  /** The expert a token's slot names. */
  function ExpertAt(r: Routing, t: nat, p: nat): nat
    requires Valid(r) && t < |r.index| && p < r.slots
  {
    r.index[t][p]
  }

  /** One coordinate of an expert's output, as a function of the expert and the token's state. */
  type Expert<!X> = (nat, X) -> real

  function Term<X>(r: Routing, f: Expert<X>, hidden: seq<X>, t: nat, p: nat): real
    requires Valid(r) && |hidden| == |r.index| && t < |hidden| && p < r.slots
  {
    f(ExpertAt(r, t, p), hidden[t]) * r.weights[t][p]
  }

  /** The plain form: the weighted outputs of a token's slots, added up. */
  function TokenSum<X>(r: Routing, f: Expert<X>, hidden: seq<X>, t: nat, slots: nat): real
    requires Valid(r) && |hidden| == |r.index| && t < |hidden| && slots <= r.slots
  {
    if slots == 0 then 0.0 else TokenSum(r, f, hidden, t, slots - 1) + Term(r, f, hidden, t, slots - 1)
  }

  // ---- The grouped form ----

  /** `torch.where` on one expert's mask: (slot, token) pairs, slot by slot. */
  function Where(r: Routing, e: nat, slots: nat): (s: seq<Visit>)
    requires Valid(r) && slots <= r.slots
    ensures forall j | 0 <= j < |s| ::
      s[j].slot < slots && s[j].token < |r.index| && ExpertAt(r, s[j].token, s[j].slot) == e
  {
    if slots == 0 then [] else Where(r, e, slots - 1) + WhereSlot(r, e, slots - 1, |r.index|)
  }

  function WhereSlot(r: Routing, e: nat, p: nat, tokens: nat): (s: seq<Visit>)
    requires Valid(r) && p < r.slots && tokens <= |r.index|
    ensures forall j | 0 <= j < |s| :: s[j].slot == p && s[j].token < tokens && ExpertAt(r, s[j].token, p) == e
  {
    if tokens == 0 then []
    else WhereSlot(r, e, p, tokens - 1) + if ExpertAt(r, tokens - 1, p) == e then [Visit(p, tokens - 1)] else []
  }

  /** The experts some slot names, in ascending order. */
  function Hits(r: Routing, experts: nat): seq<nat>
    requires Valid(r)
  {
    if experts == 0 then []
    else Hits(r, experts - 1) + if Where(r, experts - 1, r.slots) != [] then [experts - 1] else []
  }

  /** What the pairs add to one token. */
  function Added(pairs: seq<Visit>, rows: seq<real>, t: nat): real
    requires |pairs| == |rows|
  {
    if pairs == [] then 0.0
    else
      var k := |pairs| - 1;
      Added(pairs[..k], rows[..k], t) + if pairs[k].token == t then rows[k] else 0.0
  }

  /** The part of a token's sum that goes to one expert. */
  function Share<X>(r: Routing, f: Expert<X>, hidden: seq<X>, t: nat, e: nat, slots: nat): real
    requires Valid(r) && |hidden| == |r.index| && t < |hidden| && slots <= r.slots
  {
    if slots == 0 then 0.0
    else
      var term := if ExpertAt(r, t, slots - 1) == e then Term(r, f, hidden, t, slots - 1) else 0.0;
      Share(r, f, hidden, t, e, slots - 1) + term
  }

  function Gathered<X>(r: Routing, f: Expert<X>, hidden: seq<X>, pairs: seq<Visit>): (rows: seq<real>)
    requires Valid(r) && |hidden| == |r.index|
    requires forall j | 0 <= j < |pairs| :: pairs[j].slot < r.slots && pairs[j].token < |hidden|
    ensures |rows| == |pairs|
    ensures forall j | 0 <= j < |pairs| :: rows[j] == Term(r, f, hidden, pairs[j].token, pairs[j].slot)
  {
    seq(|pairs|, j requires 0 <= j < |pairs| => Term(r, f, hidden, pairs[j].token, pairs[j].slot))
  }

  lemma {:induction false} AddedConcat(a: seq<Visit>, b: seq<Visit>, x: seq<real>, y: seq<real>, t: nat)
    requires |a| == |x| && |b| == |y|
    ensures Added(a + b, x + y, t) == Added(a, x, t) + Added(b, y, t)
  {
    if b == [] {
      assert a + b == a && x + y == x;
    } else {
      var k := |b| - 1;
      assert (a + b)[..|a + b| - 1] == a + b[..k] && (x + y)[..|a + b| - 1] == x + y[..k];
      AddedConcat(a, b[..k], x, y[..k], t);
    }
  }

  ghost predicate Reach(r: Routing, pairs: seq<Visit>) {
    forall j | 0 <= j < |pairs| :: pairs[j].slot < r.slots && pairs[j].token < |r.index|
  }

  /** What one expert's gathered rows add to one token. */
  ghost function Effect<X>(r: Routing, f: Expert<X>, hidden: seq<X>, pairs: seq<Visit>, t: nat): real
    requires Valid(r) && |hidden| == |r.index| && Reach(r, pairs)
  {
    Added(pairs, Gathered(r, f, hidden, pairs), t)
  }

  lemma EffectConcat<X>(r: Routing, f: Expert<X>, hidden: seq<X>, a: seq<Visit>, b: seq<Visit>, t: nat)
    requires Valid(r) && |hidden| == |r.index| && Reach(r, a) && Reach(r, b)
    ensures Reach(r, a + b)
    ensures Effect(r, f, hidden, a + b, t) == Effect(r, f, hidden, a, t) + Effect(r, f, hidden, b, t)
  {
    hide Term, Valid;
    assert Gathered(r, f, hidden, a + b) == Gathered(r, f, hidden, a) + Gathered(r, f, hidden, b);
    AddedConcat(a, b, Gathered(r, f, hidden, a), Gathered(r, f, hidden, b), t);
  }

  lemma EffectOne<X>(r: Routing, f: Expert<X>, hidden: seq<X>, p: nat, u: nat, t: nat)
    requires Valid(r) && |hidden| == |r.index| && p < r.slots && u < |hidden|
    ensures Reach(r, [Visit(p, u)])
    ensures Effect(r, f, hidden, [Visit(p, u)], t) == if u == t then Term(r, f, hidden, u, p) else 0.0
  {
    hide Term, Valid;
    var pairs := [Visit(p, u)];
    var rows := Gathered(r, f, hidden, pairs);
    assert pairs[0] == Visit(p, u) && rows[0] == Term(r, f, hidden, pairs[0].token, pairs[0].slot);
    assert Added(pairs[..0], rows[..0], t) == 0.0;
  }

  lemma EffectSnoc<X>(r: Routing, f: Expert<X>, hidden: seq<X>, before: seq<Visit>, p: nat, u: nat, t: nat)
    requires Valid(r) && |hidden| == |r.index| && Reach(r, before) && p < r.slots && u < |hidden|
    ensures Reach(r, before + [Visit(p, u)])
    ensures Effect(r, f, hidden, before + [Visit(p, u)], t)
         == Effect(r, f, hidden, before, t) + if u == t then Term(r, f, hidden, u, p) else 0.0
  {
    hide Term, Valid, Effect, Reach;
    EffectOne(r, f, hidden, p, u, t);
    EffectConcat(r, f, hidden, before, [Visit(p, u)], t);
  }

  lemma EffectNone<X>(r: Routing, f: Expert<X>, hidden: seq<X>, t: nat)
    requires Valid(r) && |hidden| == |r.index|
    ensures Reach(r, []) && Effect(r, f, hidden, [], t) == 0.0
  {
  }

  lemma WhereSlotStep(r: Routing, e: nat, p: nat, tokens: nat)
    requires Valid(r) && p < r.slots && tokens <= |r.index|
    ensures WhereSlot(r, e, p, tokens)
         == if tokens == 0 then []
            else if ExpertAt(r, tokens - 1, p) == e then WhereSlot(r, e, p, tokens - 1) + [Visit(p, tokens - 1)]
            else WhereSlot(r, e, p, tokens - 1)
  {
  }

  /** One slot's pairs reach a token at most once. */
  lemma {:induction false} SlotAdds<X>(r: Routing, f: Expert<X>, hidden: seq<X>, e: nat, p: nat, tokens: nat, t: nat)
    requires Valid(r) && |hidden| == |r.index| && p < r.slots && tokens <= |hidden| && t < |hidden|
    ensures Reach(r, WhereSlot(r, e, p, tokens))
    ensures Effect(r, f, hidden, WhereSlot(r, e, p, tokens), t)
         == if t < tokens && ExpertAt(r, t, p) == e then Term(r, f, hidden, t, p) else 0.0
  {
    hide Term, Effect, WhereSlot, Reach, Valid, ExpertAt;
    WhereSlotStep(r, e, p, tokens);
    if tokens == 0 {
      EffectNone(r, f, hidden, t);
    } else {
      SlotAdds(r, f, hidden, e, p, tokens - 1, t);
      EffectSnoc(r, f, hidden, WhereSlot(r, e, p, tokens - 1), p, tokens - 1, t);
    }
  }

  lemma WhereStep(r: Routing, e: nat, slots: nat)
    requires Valid(r) && slots <= r.slots
    ensures Where(r, e, slots)
         == if slots == 0 then [] else Where(r, e, slots - 1) + WhereSlot(r, e, slots - 1, |r.index|)
  {
  }

  lemma {:induction false} ExpertAdds<X>(r: Routing, f: Expert<X>, hidden: seq<X>, e: nat, slots: nat, t: nat)
    requires Valid(r) && |hidden| == |r.index| && slots <= r.slots && t < |hidden|
    ensures Reach(r, Where(r, e, slots))
    ensures Effect(r, f, hidden, Where(r, e, slots), t) == Share(r, f, hidden, t, e, slots)
  {
    hide Term, Effect, Where, WhereSlot, Reach, Valid, ExpertAt;
    WhereStep(r, e, slots);
    if slots == 0 {
      EffectNone(r, f, hidden, t);
    } else {
      ExpertAdds(r, f, hidden, e, slots - 1, t);
      SlotAdds(r, f, hidden, e, slots - 1, |r.index|, t);
      EffectConcat(r, f, hidden, Where(r, e, slots - 1), WhereSlot(r, e, slots - 1, |r.index|), t);
    }
  }

  /** The sum over all hit experts of a token's shares, in the order the loop visits them. */
  function Shares<X>(r: Routing, f: Expert<X>, hidden: seq<X>, t: nat, hits: seq<nat>): real
    requires Valid(r) && |hidden| == |r.index| && t < |hidden|
  {
    if hits == [] then 0.0
    else Shares(r, f, hidden, t, hits[..|hits| - 1]) + Share(r, f, hidden, t, hits[|hits| - 1], r.slots)
  }

  /** The part of a token's sum that goes to experts below `e`. */
  function Below<X>(r: Routing, f: Expert<X>, hidden: seq<X>, t: nat, e: nat, slots: nat): real
    requires Valid(r) && |hidden| == |r.index| && t < |hidden| && slots <= r.slots
  {
    if slots == 0 then 0.0
    else
      var term := if ExpertAt(r, t, slots - 1) < e then Term(r, f, hidden, t, slots - 1) else 0.0;
      Below(r, f, hidden, t, e, slots - 1) + term
  }

  lemma {:induction false} BelowStep<X>(r: Routing, f: Expert<X>, hidden: seq<X>, t: nat, e: nat, slots: nat)
    requires Valid(r) && |hidden| == |r.index| && t < |hidden| && slots <= r.slots
    ensures Below(r, f, hidden, t, e + 1, slots) == Below(r, f, hidden, t, e, slots) + Share(r, f, hidden, t, e, slots)
    ensures Below(r, f, hidden, t, 0, slots) == 0.0
    ensures Below(r, f, hidden, t, r.experts, slots) == TokenSum(r, f, hidden, t, slots)
  {
    hide Term;
    if slots > 0 { BelowStep(r, f, hidden, t, e, slots - 1); }
  }

  lemma {:induction false} HitsCover<X>(r: Routing, f: Expert<X>, hidden: seq<X>, t: nat, e: nat)
    requires Valid(r) && |hidden| == |r.index| && t < |hidden|
    ensures Shares(r, f, hidden, t, Hits(r, e)) == Below(r, f, hidden, t, e, r.slots)
  {
    hide Term, Valid, Where, Share, Below, Effect, Shares, Hits;
    BelowStep(r, f, hidden, t, if e == 0 then 0 else e - 1, r.slots);
    HitsStep(r, f, hidden, t, e);
    if e > 0 {
      HitsCover(r, f, hidden, t, e - 1);
      ExpertAdds(r, f, hidden, e - 1, r.slots, t);
      EffectNone(r, f, hidden, t);
    }
  }

  lemma HitsStep<X>(r: Routing, f: Expert<X>, hidden: seq<X>, t: nat, e: nat)
    requires Valid(r) && |hidden| == |r.index| && t < |hidden|
    ensures Shares(r, f, hidden, t, Hits(r, e))
      == if e == 0 then 0.0
         else Shares(r, f, hidden, t, Hits(r, e - 1))
              + if Where(r, e - 1, r.slots) != [] then Share(r, f, hidden, t, e - 1, r.slots) else 0.0
  {
    hide Term, Valid, Where, Share;
    if e == 0 {
      assert Hits(r, e) == [];
    } else if Where(r, e - 1, r.slots) != [] {
      assert Hits(r, e) == Hits(r, e - 1) + [e - 1];
      assert Hits(r, e)[..|Hits(r, e)| - 1] == Hits(r, e - 1);
    } else {
      assert Hits(r, e) == Hits(r, e - 1);
    }
  }

  /** Over any routing, the shares of the hit experts add up to the plain sum. */
  lemma GroupedIsPlain<X>(r: Routing, f: Expert<X>, hidden: seq<X>, t: nat)
    requires Valid(r) && |hidden| == |r.index| && t < |hidden|
    ensures Shares(r, f, hidden, t, Hits(r, r.experts)) == TokenSum(r, f, hidden, t, r.slots)
  {
    HitsCover(r, f, hidden, t, r.experts);
    BelowStep(r, f, hidden, t, 0, r.slots);
  }

  /** What the slots of token `t` contribute: each slot's own expert on the token's state, times that slot's weight. */
  ghost function Summands<X>(r: Routing, f: Expert<X>, hidden: seq<X>, t: nat): (s: seq<real>)
    requires Valid(r) && |hidden| == |r.index| && t < |hidden|
    ensures |s| == |r.index[t]| == |r.weights[t]|
    ensures forall p | 0 <= p < |s| :: s[p] == f(r.index[t][p], hidden[t]) * r.weights[t][p]
  {
    seq(r.slots, p requires 0 <= p < r.slots => Term(r, f, hidden, t, p))
  }

  lemma {:induction false} PlainIsSum<X>(r: Routing, f: Expert<X>, hidden: seq<X>, t: nat, slots: nat)
    requires Valid(r) && |hidden| == |r.index| && t < |hidden| && slots <= r.slots
    ensures TokenSum(r, f, hidden, t, slots) == SumOf(Summands(r, f, hidden, t)[..slots])
  {
    if slots > 0 {
      PlainIsSum(r, f, hidden, t, slots - 1);
      var s := Summands(r, f, hidden, t);
      assert s[..slots][..slots - 1] == s[..slots - 1];
    }
  }

  /** `index_add_`: rows added in place to their tokens, repeats accumulating. */
  method IndexAdd(out: array<real>, pairs: seq<Visit>, rows: seq<real>)
    requires |pairs| == |rows| && forall j | 0 <= j < |pairs| :: pairs[j].token < out.Length
    modifies out
    ensures forall t | 0 <= t < out.Length :: out[t] == old(out[t]) + Added(pairs, rows, t)
  {
    for j := 0 to |pairs|
      invariant forall t | 0 <= t < out.Length :: out[t] == old(out[t]) + Added(pairs[..j], rows[..j], t)
    {
      assert pairs[..j + 1][..j] == pairs[..j] && rows[..j + 1][..j] == rows[..j];
      out[pairs[j].token] := out[pairs[j].token] + rows[j];
    }
    assert pairs[..|pairs|] == pairs && rows[..|rows|] == rows;
  }

  /** The layer: expert by hit expert, gather its tokens, run it, weight, and add back. Every token ends with the
      plain sum over its own slots. */
  method Forward<X>(hidden: seq<X>, r: Routing, f: Expert<X>) returns (out: array<real>)
    requires Valid(r) && |hidden| == |r.index|
    ensures fresh(out) && out.Length == |hidden|
    ensures forall t | 0 <= t < |hidden| :: out[t] == SumOf(Summands(r, f, hidden, t))
  {
    hide Term, Where, Gathered, Share, Added, TokenSum, Hits, Reach, SumOf, Summands;
    out := new real[|hidden|];
    for t := 0 to out.Length
      invariant forall u | 0 <= u < t :: out[u] == 0.0
    {
      out[t] := 0.0;
    }
    var hits := Hits(r, r.experts);
    for i := 0 to |hits|
      invariant forall t | 0 <= t < |hidden| :: out[t] == Shares(r, f, hidden, t, hits[..i])
    {
      var pairs := Where(r, hits[i], r.slots);
      var rows := Gathered(r, f, hidden, pairs);
      assert hits[..i + 1][..i] == hits[..i];
      forall t | 0 <= t < |hidden| ensures Added(pairs, rows, t) == Share(r, f, hidden, t, hits[i], r.slots) {
        ExpertAdds(r, f, hidden, hits[i], r.slots, t);
      }
      IndexAdd(out, pairs, rows);
    }
    assert hits[..|hits|] == hits;
    forall t | 0 <= t < |hidden| ensures out[t] == SumOf(Summands(r, f, hidden, t)) {
      GroupedIsPlain(r, f, hidden, t);
      PlainIsSum(r, f, hidden, t, r.slots);
      assert Summands(r, f, hidden, t)[..r.slots] == Summands(r, f, hidden, t);
    }
  }
}
