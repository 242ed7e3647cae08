/** The latent generation loop: latent steps until the closing tag is chosen, then answer tokens. */
module Generation {
  import opened Sequences
  import opened Wrappers

  datatype Limits = Limits(maxLatent: nat, maxNew: nat, close: nat, eos: Option<nat>)

  /** What a call feeds: the prompt's embeddings, a latent sampled from the last hidden state, or a token's
      embedding. */
  datatype Input = Prompt | Latent(step: nat) | Token(id: nat)

  /** One call of the text model: what it feeds and at which positions, and the attention mask over all so far. */
  datatype Call = Call(input: Input, positions: seq<int>, mask: seq<int>)

  function Total(mask: seq<int>): int {
    if mask == [] then 0 else Total(mask[..|mask| - 1]) + mask[|mask| - 1]
  }

  /** Running sum of the mask less one, at least zero; training and inference share it. */
  function PositionsFromMask(mask: seq<int>): (r: seq<int>)
    ensures |r| == |mask|
  {
    seq(|mask|, i requires 0 <= i < |mask| =>
      var x := Total(mask[..i + 1]) - 1; if x < 0 then 0 else x)
  }

  lemma {:induction false} TotalOfOnes(n: nat)
    ensures Total(Copies(1, n)) == n
  {
    if n > 0 {
      assert Copies(1, n)[..n - 1] == Copies(1, n - 1);
      TotalOfOnes(n - 1);
    }
  }

  /** A right-padded row numbers its attended positions 0, 1, 2, .... */
  lemma RowPositions(mask: seq<int>, n: nat, t: nat)
    requires t < n <= |mask| && forall i | 0 <= i < n :: mask[i] == 1
    ensures PositionsFromMask(mask)[t] == t
  {
    assert mask[..t + 1] == Copies(1, t + 1);
    TotalOfOnes(t + 1);
  }

  /** All positions fed, in order. */
  function Fed(calls: seq<Call>): seq<int> {
    if calls == [] then [] else Fed(calls[..|calls| - 1]) + calls[|calls| - 1].positions
  }

  /** Positions count up from zero without gaps, and at every call the mask covers exactly the embeddings fed,
      all of them attended. */
  ghost predicate Consistent(calls: seq<Call>) {
    (forall i | 0 <= i < |Fed(calls)| :: Fed(calls)[i] == i)
    && forall j | 0 <= j < |calls| :: calls[j].mask == Copies(1, |Fed(calls[..j + 1])|)
  }

  lemma {:induction false} ConsistentNext(calls: seq<Call>, call: Call)
    requires Consistent(calls) && call == Call(call.input, [|Fed(calls)|], Copies(1, |Fed(calls)| + 1))
    ensures Consistent(calls + [call]) && |Fed(calls + [call])| == |Fed(calls)| + 1
  {
    var all := calls + [call];
    assert all[..|calls|] == calls;
    assert Fed(all) == Fed(calls) + [|Fed(calls)|];
    forall j | 0 <= j < |all| ensures all[j].mask == Copies(1, |Fed(all[..j + 1])|) {
      if j < |calls| { assert all[..j + 1] == calls[..j + 1]; } else { assert all[..j + 1] == all; }
    }
  }

  lemma PromptCall(prompt: nat)
    ensures var call := Call(Prompt, PositionsFromMask(Copies(1, prompt)), Copies(1, prompt));
      Consistent([call]) && |Fed([call])| == prompt
  {
    var call := Call(Prompt, PositionsFromMask(Copies(1, prompt)), Copies(1, prompt));
    assert [call][..0] == [] && [call][..1] == [call];
    forall i | 0 <= i < prompt ensures call.positions[i] == i { RowPositions(Copies(1, prompt), prompt, i); }
  }

  /** After the first, every call feeds one embedding, at the next position. */
  ghost predicate OneByOne(calls: seq<Call>, prompt: nat) {
    calls != [] && |Fed(calls)| == prompt + |calls| - 1
    && forall j | 1 <= j < |calls| :: calls[j].positions == [prompt + j - 1]
  }

  /** `choose` gives the token the head picks after each latent step, greedy or sampled. */
  method LatentSteps(prompt: nat, choose: nat -> nat, cfg: Limits)
    returns (calls: seq<Call>, mask: seq<int>, position: int, latents: nat, hitEol: bool)
    requires prompt >= 1
    ensures Consistent(calls) && OneByOne(calls, prompt) && |calls| == 1 + latents
    ensures mask == Copies(1, prompt + latents) && position == prompt + latents - 1
    ensures latents <= cfg.maxLatent && (!hitEol ==> latents == cfg.maxLatent)
    ensures hitEol <==> latents > 0 && choose(latents - 1) == cfg.close
    ensures forall i | 0 <= i < latents - 1 :: choose(i) != cfg.close
    ensures calls[0].input == Prompt && forall i | 0 <= i < latents :: calls[1 + i].input == Latent(i)
  {
    hide Fed, Consistent;
    mask := Copies(1, prompt);
    var positions := PositionsFromMask(mask);
    RowPositions(mask, prompt, prompt - 1);
    position := positions[prompt - 1];
    calls := [Call(Prompt, positions, mask)];
    PromptCall(prompt);
    var done := false;
    latents, hitEol := 0, false;
    for k := 0 to cfg.maxLatent
      invariant !done && !hitEol && latents == k
      invariant Consistent(calls) && OneByOne(calls, prompt) && |calls| == 1 + latents
      invariant mask == Copies(1, prompt + latents) && position == prompt + latents - 1
      invariant forall i | 0 <= i < latents :: choose(i) != cfg.close
      invariant calls[0].input == Prompt && forall i | 0 <= i < latents :: calls[1 + i].input == Latent(i)
    {
      var active := if done then 0 else 1;
      ghost var before := mask;
      mask := mask + [active];
      assert mask == Copies(1, prompt + latents + 1);
      position := position + active;
      latents := latents + active;
      ConsistentNext(calls, Call(Latent(k), [position], mask));
      calls := calls + [Call(Latent(k), [position], mask)];
      var isEol := choose(k) == cfg.close;
      if isEol { hitEol := true; }
      done := done || isEol;
      if done { break; }
    }
  }

  /** Feeding one more attended embedding at the next position. */
  method FeedOne(token: nat, calls0: seq<Call>, mask0: seq<int>, position0: int, ghost prompt: nat)
    returns (calls: seq<Call>, mask: seq<int>, position: int)
    requires Consistent(calls0) && OneByOne(calls0, prompt)
    requires mask0 == Copies(1, |Fed(calls0)|) && position0 == |Fed(calls0)| - 1
    ensures Consistent(calls) && OneByOne(calls, prompt) && |calls| == |calls0| + 1
    ensures calls[..|calls0|] == calls0 && calls[|calls0|].input == Token(token)
    ensures mask == Copies(1, |Fed(calls)|) && position == |Fed(calls)| - 1
  {
    hide Fed, Consistent;
    mask := mask0 + [1];
    assert mask == Copies(1, |Fed(calls0)| + 1);
    position := position0 + 1;
    ConsistentNext(calls0, Call(Token(token), [position], mask));
    calls := calls0 + [Call(Token(token), [position], mask)];
  }

  method AnswerSteps(
      calls0: seq<Call>, mask0: seq<int>, position0: int, answer: nat -> nat, cfg: Limits, ghost prompt: nat)
    returns (calls: seq<Call>, tokens: seq<nat>)
    requires Consistent(calls0) && OneByOne(calls0, prompt)
    requires mask0 == Copies(1, |Fed(calls0)|) && position0 == |Fed(calls0)| - 1
    ensures Consistent(calls) && OneByOne(calls, prompt)
    ensures |tokens| <= cfg.maxNew && forall i | 0 <= i < |tokens| :: tokens[i] == answer(i)
    ensures forall i | 0 <= i < |tokens| - 1 :: cfg.eos != Some(tokens[i])
    ensures var stopped := tokens != [] && cfg.eos == Some(tokens[|tokens| - 1]);
      && (|tokens| < cfg.maxNew ==> stopped)
      && |calls| == |calls0| + |tokens| - if stopped then 1 else 0
    ensures calls[..|calls0|] == calls0
    ensures forall j | |calls0| <= j < |calls| :: calls[j].input == Token(tokens[j - |calls0|])
  {
    hide Fed, Consistent, OneByOne, Copies;
    calls, tokens := calls0, [];
    var mask, position := mask0, position0;
    for k := 0 to cfg.maxNew
      invariant |tokens| == k && |calls| == |calls0| + k
      invariant Consistent(calls) && OneByOne(calls, prompt)
      invariant mask == Copies(1, |Fed(calls)|) && position == |Fed(calls)| - 1
      invariant forall i | 0 <= i < k :: tokens[i] == answer(i) && cfg.eos != Some(tokens[i])
      invariant calls[..|calls0|] == calls0
      invariant forall j | |calls0| <= j < |calls| :: calls[j].input == Token(tokens[j - |calls0|])
    {
      var token := answer(k);
      tokens := tokens + [token];
      if cfg.eos.Some? && token == cfg.eos.value { break; }
      ghost var before := calls;
      calls, mask, position := FeedOne(token, calls, mask, position, prompt);
      assert forall j | 0 <= j < |before| :: calls[j] == calls[..|before|][j];
    }
  }

  /** A whole run. The closing tag is always fed once, whether or not it was chosen; an end-of-sequence token is
      returned but not fed. */
  method LatentGenerate(prompt: nat, choose: nat -> nat, answer: nat -> nat, cfg: Limits)
    returns (calls: seq<Call>, tokens: seq<nat>, latents: nat, hitEol: bool)
    requires prompt >= 1
    ensures Consistent(calls) && OneByOne(calls, prompt)
    ensures latents <= cfg.maxLatent && (!hitEol ==> latents == cfg.maxLatent)
    ensures hitEol <==> latents > 0 && choose(latents - 1) == cfg.close
    ensures forall i | 0 <= i < latents - 1 :: choose(i) != cfg.close
    ensures |tokens| <= cfg.maxNew && forall i | 0 <= i < |tokens| :: tokens[i] == answer(i)
    ensures forall i | 0 <= i < |tokens| - 1 :: cfg.eos != Some(tokens[i])
    ensures var stopped := tokens != [] && cfg.eos == Some(tokens[|tokens| - 1]);
      && (|tokens| < cfg.maxNew ==> stopped)
      && |calls| == 2 + latents + |tokens| - if stopped then 1 else 0
    ensures calls[0].input == Prompt && (forall i | 0 <= i < latents :: calls[1 + i].input == Latent(i))
    ensures calls[1 + latents].input == Token(cfg.close)
    ensures forall j | 2 + latents <= j < |calls| :: calls[j].input == Token(tokens[j - 2 - latents])
  {
    hide Fed, Consistent, Copies;
    var mask, position;
    calls, mask, position, latents, hitEol := LatentSteps(prompt, choose, cfg);
    ghost var first := calls;
    calls, mask, position := FeedOne(cfg.close, calls, mask, position, prompt);
    assert forall j | 0 <= j < |first| :: calls[j] == calls[..|first|][j];
    ghost var second := calls;
    calls, tokens := AnswerSteps(calls, mask, position, answer, cfg, prompt);
    assert forall j | 0 <= j < |second| :: calls[j] == calls[..|second|][j];
  }

  function MaskBits(mask: seq<bool>): (r: seq<int>)
    ensures |r| == |mask| && forall i | 0 <= i < |r| :: r[i] == if mask[i] then 1 else 0
  {
    seq(|mask|, i requires 0 <= i < |mask| => if mask[i] then 1 else 0)
  }

  /** Training numbers slot t of a compressed row t; a run on that row's prefix feeds latent i at the position of
      pooled slot i, and its closing tag where training has it, after as many latents. */
  lemma TrainingPositionsMatch(calls: seq<Call>, prompt: nat, latents: nat, length: nat, more: nat, i: nat)
    requires Consistent(calls) && OneByOne(calls, prompt) && prompt >= 1
    requires i <= latents && |calls| >= 2 + latents && prompt + latents < length
    ensures PositionsFromMask(MaskBits(Copies(true, length) + Copies(false, more)))[prompt + i] == prompt + i
    ensures calls[1 + i].positions == [prompt + i]
  {
    hide PositionsFromMask, Fed;
    RowPositions(MaskBits(Copies(true, length) + Copies(false, more)), length, prompt + i);
  }
}
