/** Where the user query ends: the anchor training picks on a full row and inference picks on the prompt. */
module QueryAnchor {
  import opened Wrappers
  import opened Compression
  import opened CompressionPoints
  import opened AudioPacking

  /** `promptLast` selects the prompt's last token instead of the end of the user turn. */
  datatype AnchorSettings = AnchorSettings(tags: Settings, imEnd: nat, promptLast: bool)

  function Max(a: int, b: int): int {
    if a > b then a else b
  }

  function Min(a: int, b: int): int {
    if a < b then a else b
  }

  /** Tokens kept verbatim in front of the reasoning; at least 1. */
  function PrefixLength(ids: seq<nat>, valid: nat, s: Settings): (r: int)
    ensures r >= 1
  {
    match (IndexOf(ids, s.open), IndexOf(ids, s.close))
    case (Some(o), Some(c)) =>
      if c <= o + 1 || c >= valid then Max(1, valid)
      else Max(1, if s.newline == Some(ids[o + 1]) then o + 2 else o + 1)
    case _ => Max(1, valid)
  }

  method QueryPrefixLengths(ids: seq<seq<nat>>, masks: seq<seq<bool>>, s: Settings) returns (out: seq<int>)
    requires |ids| == |masks|
    ensures |out| == |ids|
    ensures forall b | 0 <= b < |ids| :: out[b] == PrefixLength(ids[b], Slots(masks[b]), s)
  {
    out := [];
    for b := 0 to |ids|
      invariant |out| == b
      invariant forall i | 0 <= i < b :: out[i] == PrefixLength(ids[i], Slots(masks[i]), s)
    {
      var valid := Slots(masks[b]);
      var open, close := IndexOf(ids[b], s.open), IndexOf(ids[b], s.close);
      if open.None? || close.None? || close.value <= open.value + 1 || close.value >= valid {
        out := out + [Max(1, valid)];
      } else {
        var reasonStart := open.value + 1;
        if s.newline.Some? && reasonStart < close.value && ids[b][reasonStart] == s.newline.value {
          reasonStart := reasonStart + 1;
        }
        out := out + [Max(1, reasonStart)];
      }
    }
  }

  /** Positions of `x`, in order. */
  function Occurrences(row: seq<nat>, x: nat): (r: seq<nat>)
    ensures forall i | 0 <= i < |r| :: r[i] < |row| && row[r[i]] == x
    ensures r == [] ==> forall j | 0 <= j < |row| :: row[j] != x
    ensures r != [] ==> forall j | r[|r| - 1] < j < |row| :: row[j] != x
  {
    if row == [] then []
    else
      var k := |row| - 1;
      Occurrences(row[..k], x) + if row[k] == x then [k] else []
  }

  /** The last turn end before the opening tag; None when there is none or no opening tag. */
  function UserEnd(ids: seq<nat>, a: AnchorSettings): (r: Option<nat>)
    ensures r.Some? ==> r.value < |ids| && IndexOf(ids, a.tags.open).Some? && r.value < IndexOf(ids, a.tags.open).value
  {
    match IndexOf(ids, a.tags.open)
    case None => None
    case Some(o) =>
      var ends := Occurrences(ids[..o], a.imEnd);
      if ends == [] then None else Some(ends[|ends| - 1])
  }

  /** Training's anchor on a full row, given the row's prefix length. */
  function TrainAnchor(ids: seq<nat>, valid: nat, prefix: int, a: AnchorSettings): int {
    if a.promptLast then Max(0, prefix - 1)
    else
      var fallback := Max(0, Min(prefix, valid) - 1);
      match (UserEnd(ids, a), IndexOf(ids, a.tags.close))
      case (Some(end), Some(c)) => if end <= 0 || end >= c then fallback else end - 1
      case _ => fallback
  }

  // ---- The anchors, from the tokens alone ----

  /** `e` is the last turn end in front of the first opening tag. */
  ghost predicate TurnEnd(ids: seq<nat>, a: AnchorSettings, e: nat) {
    exists o: nat :: FirstAt(ids, a.tags.open, o) && e < o && ids[e] == a.imEnd
      && forall j | e < j < o :: ids[j] != a.imEnd
  }

  lemma {:induction false} UserEndIff(ids: seq<nat>, a: AnchorSettings, e: nat)
    ensures UserEnd(ids, a) == Some(e) <==> TurnEnd(ids, a, e)
  {
    hide IndexOf, Occurrences;
    var open := IndexOf(ids, a.tags.open);
    if open.Some? {
      var o := open.value;
      FirstIs(ids, a.tags.open, o);
      var ends := Occurrences(ids[..o], a.imEnd);
      assert forall j | 0 <= j < o :: ids[..o][j] == ids[j];
      if UserEnd(ids, a) == Some(e) { assert FirstAt(ids, a.tags.open, o); }
    }
    if TurnEnd(ids, a, e) {
      var o: nat :| FirstAt(ids, a.tags.open, o) && e < o && ids[e] == a.imEnd
        && forall j | e < j < o :: ids[j] != a.imEnd;
      FirstIs(ids, a.tags.open, o);
      assert ids[..o][e] == a.imEnd;
    }
  }

  /** Where training anchors a row: at the token in front of the last turn end, if that lies past the first token and
      in front of the first closing tag, otherwise at the end of the prefix. */
  ghost predicate TrainMeans(anchor: int, ids: seq<nat>, valid: nat, prefix: int, a: AnchorSettings) {
    if a.promptLast then anchor == Max(0, prefix - 1)
    else if e: nat, c: nat :| TurnEnd(ids, a, e) && FirstAt(ids, a.tags.close, c) && 0 < e < c then anchor == e - 1
    else anchor == Max(0, Min(prefix, valid) - 1)
  }

  lemma {:induction false} TrainIs(ids: seq<nat>, valid: nat, prefix: int, a: AnchorSettings)
    ensures TrainMeans(TrainAnchor(ids, valid, prefix, a), ids, valid, prefix, a)
  {
    hide IndexOf, Occurrences, UserEnd, TurnEnd;
    forall e: nat, c: nat | TurnEnd(ids, a, e) && FirstAt(ids, a.tags.close, c)
      ensures UserEnd(ids, a) == Some(e) && IndexOf(ids, a.tags.close) == Some(c)
    {
      UserEndIff(ids, a, e);
      FirstIs(ids, a.tags.close, c);
    }
    var end, close := UserEnd(ids, a), IndexOf(ids, a.tags.close);
    if end.Some? && close.Some? {
      UserEndIff(ids, a, end.value);
      FirstIs(ids, a.tags.close, close.value);
    }
  }

  /** Where inference anchors a prompt: in front of its last turn end, otherwise at its last token. */
  lemma {:induction false} InferMeans(prompt: seq<nat>, a: AnchorSettings, e: nat)
    ensures a.promptLast ==> InferAnchor(prompt, a) == |prompt| - 1
    ensures !a.promptLast && TurnEnd(prompt, a, e) ==> InferAnchor(prompt, a) == Max(0, e - 1)
    ensures !a.promptLast && (forall u: nat :: !TurnEnd(prompt, a, u)) ==> InferAnchor(prompt, a) == |prompt| - 1
  {
    hide UserEnd, TurnEnd;
    UserEndIff(prompt, a, e);
    if UserEnd(prompt, a).Some? { UserEndIff(prompt, a, UserEnd(prompt, a).value); }
  }

  /** The prefix ends behind the first opening tag and the prompt's newline when a think segment ends inside the
      attended tokens, and covers them all otherwise. */
  lemma {:induction false} PrefixMeans(ids: seq<nat>, valid: nat, s: Settings, o: nat, c: nat)
    requires valid <= |ids|
    ensures FirstAt(ids, s.open, o) && FirstAt(ids, s.close, c) && o + 1 < c < valid ==>
      PrefixLength(ids, valid, s) == if s.newline == Some(ids[o + 1]) then o + 2 else o + 1
    ensures s.open !in ids || s.close !in ids ==> PrefixLength(ids, valid, s) == Max(1, valid)
    ensures FirstAt(ids, s.open, o) && FirstAt(ids, s.close, c) && !(o + 1 < c < valid) ==>
      PrefixLength(ids, valid, s) == Max(1, valid)
  {
    hide IndexOf;
    FirstIs(ids, s.open, o);
    FirstIs(ids, s.close, c);
    assert IndexOf(ids, s.open).Some? ==> s.open in ids;
    assert IndexOf(ids, s.close).Some? ==> s.close in ids;
  }

  lemma NoOccurrences(x: nat)
    ensures Occurrences([], x) == []
  {
  }

  lemma OccurrencesSnoc(row: seq<nat>, i: nat, x: nat)
    requires i < |row|
    ensures Occurrences(row[..i + 1], x) == Occurrences(row[..i], x) + if row[i] == x then [i] else []
  {
    assert row[..i + 1][..i] == row[..i];
  }

  /** The comprehension over the tokens in front of the opening tag. */
  method EndsBefore(row: seq<nat>, o: nat, x: nat) returns (ends: seq<nat>)
    requires o <= |row|
    ensures ends == Occurrences(row[..o], x)
  {
    hide Occurrences;
    ends := [];
    NoOccurrences(x);
    assert row[..0] == [];
    for i := 0 to o
      invariant ends == Occurrences(row[..i], x)
    {
      OccurrencesSnoc(row, i, x);
      if row[i] == x { ends := ends + [i]; }
    }
  }

  method QueryAnchorPosition(ids: seq<nat>, valid: nat, prefix: int, a: AnchorSettings) returns (anchor: int)
    requires !a.promptLast
    ensures anchor == TrainAnchor(ids, valid, prefix, a)
  {
    hide IndexOf, Occurrences;
    anchor := Max(0, Min(prefix, valid) - 1);
    var open, close := IndexOf(ids, a.tags.open), IndexOf(ids, a.tags.close);
    if open.None? || close.None? { return; }
    var ends := EndsBefore(ids, open.value, a.imEnd);
    if ends == [] { return; }
    var userEnd := ends[|ends| - 1];
    if !(userEnd <= 0 || userEnd >= close.value) { anchor := userEnd - 1; }
  }

  method QueryAnchorPositions(ids: seq<seq<nat>>, masks: seq<seq<bool>>, prefixes: seq<int>, a: AnchorSettings)
    returns (out: seq<int>)
    requires |ids| == |masks| == |prefixes|
    ensures |out| == |ids|
    ensures forall b | 0 <= b < |ids| :: out[b] == TrainAnchor(ids[b], Slots(masks[b]), prefixes[b], a)
    ensures forall b | 0 <= b < |ids| :: TrainMeans(out[b], ids[b], Slots(masks[b]), prefixes[b], a)
  {
    hide Slots, UserEnd, TrainMeans;
    out := [];
    for b := 0 to |ids|
      invariant |out| == b && forall i | 0 <= i < b :: out[i] == TrainAnchor(ids[i], Slots(masks[i]), prefixes[i], a)
    {
      var anchor;
      if a.promptLast {
        anchor := Max(0, prefixes[b] - 1);
      } else {
        anchor := QueryAnchorPosition(ids[b], Slots(masks[b]), prefixes[b], a);
      }
      out := out + [anchor];
    }
    forall b | 0 <= b < |ids| ensures TrainMeans(out[b], ids[b], Slots(masks[b]), prefixes[b], a) {
      TrainIs(ids[b], Slots(masks[b]), prefixes[b], a);
    }
  }

  /** Inference's anchor on the prompt. */
  function InferAnchor(prompt: seq<nat>, a: AnchorSettings): int {
    if a.promptLast then |prompt| - 1
    else match UserEnd(prompt, a)
      case Some(end) => Max(0, end - 1)
      case None => |prompt| - 1
  }

  // ---- Agreement ----

  /** The row has a think segment that ends inside the attended tokens. */
  predicate HasThink(ids: seq<nat>, valid: nat, s: Settings) {
    IndexOf(ids, s.open).Some? && IndexOf(ids, s.close).Some?
    && IndexOf(ids, s.open).value + 1 < IndexOf(ids, s.close).value < valid <= |ids|
  }

  lemma {:induction false} IndexBefore(row: seq<nat>, n: nat, x: nat)
    requires n <= |row| && IndexOf(row, x).Some? && IndexOf(row, x).value < n
    ensures IndexOf(row[..n], x) == IndexOf(row, x)
  {
    assert row[..n][1..] == row[1..][..n - 1];
    if row[0] != x { IndexBefore(row[1..], n - 1, x); }
  }

  /** The prompt is the row's prefix, and both ends see the same turn end on it. */
  lemma {:induction false} PromptSeesSame(ids: seq<nat>, valid: nat, a: AnchorSettings)
    requires HasThink(ids, valid, a.tags)
    ensures var prefix := PrefixLength(ids, valid, a.tags);
      0 < prefix <= valid && UserEnd(ids[..prefix], a) == UserEnd(ids, a)
  {
    hide IndexOf, Occurrences;
    var prefix := PrefixLength(ids, valid, a.tags);
    IndexBefore(ids, prefix, a.tags.open);
    var o := IndexOf(ids, a.tags.open).value;
    assert ids[..prefix][..o] == ids[..o];
  }

  /** Training and inference agree on a row with a think segment exactly when the last turn end before the opening
      tag is absent or not the very first token. */
  lemma {:induction false} AnchorsAgreeIff(ids: seq<nat>, valid: nat, a: AnchorSettings)
    requires HasThink(ids, valid, a.tags)
    ensures var prefix := PrefixLength(ids, valid, a.tags);
      && prefix <= valid
      && (TrainAnchor(ids, valid, prefix, a) == InferAnchor(ids[..prefix], a)
          <==> a.promptLast || UserEnd(ids, a) != Some(0))
  {
    hide UserEnd, IndexOf;
    PromptSeesSame(ids, valid, a);
    EndBeforeOpen(ids, a);
  }

  lemma EndBeforeOpen(ids: seq<nat>, a: AnchorSettings)
    ensures UserEnd(ids, a).Some? ==>
      IndexOf(ids, a.tags.open).Some? && UserEnd(ids, a).value < IndexOf(ids, a.tags.open).value
  {
  }

  /** A turn end as the first token: training anchors at the end of the prefix, inference at token 0. */
  lemma {:induction false} FirstTokenExample(s: Settings)
    requires s.open == 1 && s.close == 2 && s.newline == None
    ensures var a := AnchorSettings(s, 9, false); var ids := [9, 5, 1, 7, 7, 2, 8];
      && HasThink(ids, 7, s) && PrefixLength(ids, 7, s) == 3
      && TrainAnchor(ids, 7, 3, a) == 2 && InferAnchor(ids[..3], a) == 0
  {
    hide IndexOf, Occurrences;
    var a := AnchorSettings(s, 9, false);
    var ids: seq<nat> := [9, 5, 1, 7, 7, 2, 8];
    IndexIs(ids, 1, 2);
    IndexIs(ids, 2, 5);
    PromptSeesSame(ids, 7, a);
    var turn := ids[..2];
    assert turn == [9, 5] && turn[0] == 9;
    var ends := Occurrences(turn, 9);
    assert turn[ends[|ends| - 1]] == 9;
  }

  lemma IndexIs(row: seq<nat>, x: nat, i: nat)
    requires i < |row| && row[i] == x && forall j | 0 <= j < i :: row[j] != x
    ensures IndexOf(row, x) == Some(i)
  {
    hide IndexOf;
  }

  /** The anchor lies in the kept prefix, so it indexes the same embedding before and after compression. */
  lemma {:induction false} AnchorKept(
      row: Row, ids: seq<nat>, emb: seq<real>, labels: seq<int>, valid: nat, r: nat, a: AnchorSettings)
    requires WellSized(ids, emb, labels, valid, r, a.tags) && Compressed(row, ids, emb, labels, valid, r, a.tags)
    requires HasThink(ids, valid, a.tags)
    ensures var prefix := PrefixLength(ids, valid, a.tags); var anchor := TrainAnchor(ids, valid, prefix, a);
      && 0 <= anchor < prefix <= valid && prefix <= |row.embeds| && row.embeds[anchor] == emb[anchor]
  {
    hide UserEnd, IndexOf, Groups, Pool;
    EndBeforeOpen(ids, a);
  }
}
