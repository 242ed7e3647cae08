/** The processor's expansion of media markers into one token per encoder row. */
module Processor {
  import opened Sequences
  import opened Wrappers
  import opened AudioLengths
  import opened MediaRow
  import opened RopeIndex
  import opened RopeOrder
  import opened RopePoints

  datatype Kind = AudioKind | ImageKind | VideoKind

  /** Text followed by one media marker, bare or between its start and end tokens. */
  datatype Part = Part(text: seq<Token>, kind: Kind, bare: bool)

  // ---- The interleave of one audio-in-video segment ----

  /** The slots left from video token `v` and audio token `a` on: a video token goes first as long as its
      time has come, then whatever remains. */
  function Interleaved(times: seq<real>, n: nat, v: nat, a: nat): seq<bool>
    requires v <= |times| && a <= n
    decreases |times| - v + n - a
  {
    if v < |times| && a < n then
      if times[v] <= a as real then [true] + Interleaved(times, n, v + 1, a)
      else [false] + Interleaved(times, n, v, a + 1)
    else Copies(true, |times| - v) + Copies(false, n - a)
  }

  method Interleave(times: seq<real>, n: nat) returns (mix: seq<bool>)
    ensures mix == Interleaved(times, n, 0, 0)
  {
    var v, a := 0, 0;
    mix := [];
    while v < |times| && a < n
      invariant v <= |times| && a <= n
      invariant mix + Interleaved(times, n, v, a) == Interleaved(times, n, 0, 0)
      decreases |times| - v + n - a
    {
      ghost var was, whole := mix, Interleaved(times, n, v, a);
      if times[v] <= a as real {
        mix := mix + [true];
        v := v + 1;
      } else {
        mix := mix + [false];
        a := a + 1;
      }
      assert mix + Interleaved(times, n, v, a) == was + whole;
    }
    assert v == |times| ==> Copies(true, |times| - v) == [];
    assert a == n ==> Copies(false, n - a) == [];
    if v < |times| { mix := mix + Copies(true, |times| - v); }
    if a < n { mix := mix + Copies(false, n - a); }
  }

  function GridTimes(g: Grid, merge: nat, rate: real): seq<real>
    requires merge > 0
  {
    VideoTimes(g.t, (g.h / merge) * (g.w / merge), rate)
  }

  lemma {:induction false} TruesConcat(a: seq<bool>, b: seq<bool>)
    ensures Trues(a + b) == Trues(a) + Trues(b)
  {
    if a == [] {
      assert a + b == b;
    } else {
      assert (a + b)[1..] == a[1..] + b;
      TruesConcat(a[1..], b);
    }
  }

  lemma {:induction false} TruesFill(b: bool, n: nat)
    ensures Trues(Copies(b, n)) == if b then n else 0
  {
    if n > 0 {
      assert Copies(b, n)[1..] == Copies(b, n - 1);
      TruesFill(b, n - 1);
    }
  }

  /** The interleave holds exactly the video tokens and the audio tokens still to come. */
  lemma {:induction false} InterleavedCounts(times: seq<real>, n: nat, v: nat, a: nat)
    requires v <= |times| && a <= n
    ensures var mix := Interleaved(times, n, v, a);
      Trues(mix) == |times| - v && |mix| == |times| - v + n - a
    decreases |times| - v + n - a
  {
    if v < |times| && a < n {
      if times[v] <= a as real {
        InterleavedCounts(times, n, v + 1, a);
        TruesConcat([true], Interleaved(times, n, v + 1, a));
      } else {
        InterleavedCounts(times, n, v, a + 1);
        TruesConcat([false], Interleaved(times, n, v, a + 1));
      }
    } else {
      TruesConcat(Copies(true, |times| - v), Copies(false, n - a));
      TruesFill(true, |times| - v);
      TruesFill(false, n - a);
    }
  }

  lemma InterleavedStep(times: seq<real>, n: nat, v: nat, a: nat)
    requires v <= |times| && a <= n
    ensures var mix := Interleaved(times, n, v, a);
      && (v < |times| && a < n ==>
            mix == if times[v] <= a as real then [true] + Interleaved(times, n, v + 1, a)
                   else [false] + Interleaved(times, n, v, a + 1))
      && (v == |times| || a == n ==>
            |mix| == |times| - v + n - a && forall i | 0 <= i < |mix| :: mix[i] == (a == n))
  {
  }

  /** A video token comes after the earlier ones and after exactly the audio tokens that are sooner. */
  lemma {:induction false} InterleavedVideoAt(times: seq<real>, n: nat, v: nat, a: nat, i: nat)
    requires Sorted(times) && v <= i < |times| && a <= n
    ensures var mix := Interleaved(times, n, v, a); var at := i - v + Sooner(a, n, times[i]);
      at < |mix| && mix[at]
    decreases |times| - v + n - a
  {
    hide Interleaved;
    InterleavedStep(times, n, v, a);
    if a < n {
      if times[v] <= a as real {
        NoneSooner(a, n, times[v]);
        if i > v { InterleavedVideoAt(times, n, v + 1, a, i); }
      } else {
        assert times[v] <= times[i];
        InterleavedVideoAt(times, n, v, a + 1, i);
      }
    }
  }

  /** An audio token comes after the earlier ones and after exactly the video tokens that have come by its time. */
  lemma {:induction false} InterleavedAudioAt(times: seq<real>, n: nat, v: nat, a: nat, j: nat)
    requires Sorted(times) && v <= |times| && a <= j < n
    ensures var mix := Interleaved(times, n, v, a); var at := j - a + UpTo(times, v, j as real);
      at < |mix| && !mix[at]
    decreases |times| - v + n - a
  {
    hide Interleaved;
    InterleavedStep(times, n, v, a);
    if v < |times| {
      if times[v] <= a as real {
        InterleavedAudioAt(times, n, v + 1, a, j);
      } else {
        NoneUpTo(times, v, a as real);
        if j > a { InterleavedAudioAt(times, n, v, a + 1, j); }
      }
    }
  }

  // ---- Samples and what they expand to ----

  function MediaFor(k: Kind, cfg: Config, c: Cursor): Media
    requires Supplied(k, cfg, c)
  {
    match k
    case AudioKind => Audio
    case ImageKind => Image
    case VideoKind =>
      if cfg.inp.useAudioInVideo then
        AudioVideo(Interleaved(GridTimes(cfg.inp.videos[c.video], cfg.inp.merge, Rate(cfg, c)),
                               FeatLen(cfg.inp.audios[c.audio]), 0, 0))
      else Video
  }

  /** The iterators still hold what the marker consumes, and no input is empty. */
  predicate Supplied(k: Kind, cfg: Config, c: Cursor) {
    var inp := cfg.inp;
    inp.merge > 0 &&
    match k
    case AudioKind => c.audio < |inp.audios| && inp.audios[c.audio] >= 1
    case ImageKind => c.image < |inp.images| && GoodGrid(inp.images[c.image], inp.merge)
    case VideoKind =>
      c.video < |inp.videos| && c.video < |inp.rates| && GoodGrid(inp.videos[c.video], inp.merge)
      && inp.rates[c.video] >= 0.0
      && (inp.useAudioInVideo ==> c.audio < |inp.audios| && inp.audios[c.audio] >= 1)
  }

  lemma MediaIsGood(k: Kind, cfg: Config, c: Cursor)
    requires Supplied(k, cfg, c)
    ensures GoodMedia(MediaFor(k, cfg, c), cfg.inp, c)
  {
    hide FeatLen, GoodGrid, Interleaved, Rate;
    if k.VideoKind? && cfg.inp.useAudioInVideo {
      var g := cfg.inp.videos[c.video];
      InterleavedCounts(GridTimes(g, cfg.inp.merge, Rate(cfg, c)), FeatLen(cfg.inp.audios[c.audio]), 0, 0);
      GridWidth(g, cfg.inp.merge);
    }
  }

  /** Text without markers or placeholders. */
  predicate Quiet(text: seq<Token>) {
    forall i | 0 <= i < |text| :: !IsMark(text[i]) && Unheld(text[i]) == text[i]
  }

  /** Every marker finds its inputs; a video with its audio is only replaced between its start and end tokens. */
  predicate AllSupplied(parts: seq<Part>, cfg: Config, c: Cursor) {
    parts == []
    || (Quiet(parts[0].text) && Supplied(parts[0].kind, cfg, c)
        && !(parts[0].bare && parts[0].kind == VideoKind && cfg.inp.useAudioInVideo)
        && AllSupplied(parts[1..], cfg, Next(MediaFor(parts[0].kind, cfg, c), c)))
  }

  /** The form the position index expects: every marker wrapped, with nothing but words around. */
  predicate AllWrapped(parts: seq<Part>) {
    parts == [] || (!parts[0].bare && Plain(parts[0].text) && AllWrapped(parts[1..]))
  }

  function ItemsOf(parts: seq<Part>, cfg: Config, c: Cursor): seq<Item>
    requires AllSupplied(parts, cfg, c)
  {
    if parts == [] then []
    else
      var m := MediaFor(parts[0].kind, cfg, c);
      [Item(parts[0].text, m)] + ItemsOf(parts[1..], cfg, Next(m, c))
  }

  /** What the processor writes is a row the position index accepts. */
  lemma {:induction false} ItemsAreGood(parts: seq<Part>, cfg: Config, c: Cursor)
    requires AllSupplied(parts, cfg, c) && AllWrapped(parts)
    ensures GoodItems(ItemsOf(parts, cfg, c), cfg.inp, c)
  {
    if parts != [] {
      hide GoodMedia, Supplied, MediaFor, Quiet;
      MediaIsGood(parts[0].kind, cfg, c);
      ItemsAreGood(parts[1..], cfg, Next(MediaFor(parts[0].kind, cfg, c), c));
    }
  }

  function Mark(k: Kind): (r: seq<Token>)
    ensures |r| == 3
  {
    match k
    case AudioKind => [AudioStart, AudioPad, AudioEnd]
    case ImageKind => [VisionStart, ImagePad, VisionEnd]
    case VideoKind => [VisionStart, VideoPad, VisionEnd]
  }

  /** A wrapped sequence, or what is inside when it stands bare. */
  function Dressed(bare: bool, wrapped: seq<Token>): seq<Token> {
    if bare && |wrapped| >= 2 then wrapped[1..|wrapped| - 1] else wrapped
  }

  lemma DressedBare(x: Token, body: seq<Token>, y: Token)
    ensures Dressed(true, [x] + body + [y]) == body
  {
  }

  /** The sample before expansion. */
  function Draft(parts: seq<Part>, tail: seq<Token>): seq<Token> {
    if parts == [] then tail
    else parts[0].text + (Dressed(parts[0].bare, Mark(parts[0].kind)) + Draft(parts[1..], tail))
  }

  /** The sample after expansion. */
  function Whole(parts: seq<Part>, tail: seq<Token>, cfg: Config, c: Cursor): seq<Token>
    requires AllSupplied(parts, cfg, c)
  {
    if parts == [] then tail
    else
      var m := MediaFor(parts[0].kind, cfg, c);
      MediaIsGood(parts[0].kind, cfg, c);
      parts[0].text
        + (Dressed(parts[0].bare, MediaTokens(m, cfg.inp, c)) + Whole(parts[1..], tail, cfg, Next(m, c)))
  }

  /** Wrapped samples expand to the rows of the position index. */
  lemma {:induction false} WholeIsRow(parts: seq<Part>, tail: seq<Token>, cfg: Config, c: Cursor)
    requires AllSupplied(parts, cfg, c) && AllWrapped(parts)
    ensures GoodItems(ItemsOf(parts, cfg, c), cfg.inp, c)
    ensures Whole(parts, tail, cfg, c) == RowTokens(ItemsOf(parts, cfg, c), tail, cfg.inp, c)
  {
    hide GoodMedia, Supplied, MediaFor, Quiet, MediaTokens;
    ItemsAreGood(parts, cfg, c);
    if parts != [] {
      WholeIsRow(parts[1..], tail, cfg, Next(MediaFor(parts[0].kind, cfg, c), c));
    }
  }

  // ---- Text replacement ----

  predicate IsMark(t: Token) {
    t == AudioPad || t == ImagePad || t == VideoPad
  }

  /** The markers of the sample in order of position. */
  function Markers(s: seq<Token>): seq<Token> {
    if s == [] then [] else (if IsMark(s[0]) then [s[0]] else []) + Markers(s[1..])
  }

  /** Where `pat` first occurs at or after `from`. */
  function FindSeq(s: seq<Token>, pat: seq<Token>, from: nat): (r: Option<nat>)
    requires from <= |s|
    ensures r.Some? ==> from <= r.value && r.value + |pat| <= |s| && s[r.value..r.value + |pat|] == pat
    decreases |s| - from
  {
    if from + |pat| > |s| then None
    else if s[from..from + |pat|] == pat then Some(from)
    else if from == |s| then None
    else FindSeq(s, pat, from + 1)
  }

  /** `s.replace(pat, with, 1)`. */
  function ReplaceFirst(s: seq<Token>, pat: seq<Token>, with: seq<Token>): seq<Token> {
    match FindSeq(s, pat, 0)
    case None => s
    case Some(at) => s[..at] + with + s[at + |pat|..]
  }

  /** A pattern is found where it stands if one of its tokens occurs nowhere before. */
  lemma {:induction false} FindHere(s: seq<Token>, pat: seq<Token>, at: nat, k: nat, from: nat)
    requires from <= at && at + |pat| <= |s| && s[at..at + |pat|] == pat && k < |pat|
    requires forall i | 0 <= i < at + k :: s[i] != pat[k]
    ensures FindSeq(s, pat, from) == Some(at)
    decreases at - from
  {
    if from < at {
      assert s[from..from + |pat|][k] == s[from + k];
      FindHere(s, pat, at, k, from + 1);
    }
  }

  lemma ReplaceHere(pre: seq<Token>, pat: seq<Token>, post: seq<Token>, with: seq<Token>, k: nat)
    requires k < |pat| && pat[k] !in pre && forall i | 0 <= i < k :: pat[i] != pat[k]
    ensures ReplaceFirst(pre + (pat + post), pat, with) == pre + (with + post)
  {
    hide FindSeq;
    var s := pre + (pat + post);
    assert s[|pre|..|pre| + |pat|] == pat;
    assert s[..|pre|] == pre && s[|pre| + |pat|..] == post;
    FindHere(s, pat, |pre|, k, 0);
    assert pre + with + post == pre + (with + post);
  }

  function Unheld(t: Token): Token {
    match t case AudioHolder => AudioPad case ImageHolder => ImagePad case VideoHolder => VideoPad case _ => t
  }

  /** The last three replacements: placeholders become the real tokens. */
  function Unhold(s: seq<Token>): (r: seq<Token>)
    ensures |r| == |s| && forall i | 0 <= i < |s| :: r[i] == Unheld(s[i])
  {
    seq(|s|, i requires 0 <= i < |s| => Unheld(s[i]))
  }

  function HeldMix(mix: seq<bool>): (r: seq<Token>)
    ensures |r| == |mix| && forall i | 0 <= i < |mix| :: r[i] == if mix[i] then VideoHolder else AudioHolder
  {
    seq(|mix|, i requires 0 <= i < |mix| => if mix[i] then VideoHolder else AudioHolder)
  }

  /** A segment as it stands between its expansion and the last replacements. */
  function HeldMedia(m: Media, inp: Inputs, c: Cursor): seq<Token>
    requires GoodMedia(m, inp, c)
  {
    match m
    case Audio => [AudioStart] + Copies(AudioHolder, FeatLen(inp.audios[c.audio])) + [AudioEnd]
    case Image => [VisionStart] + Copies(ImageHolder, GridLen(inp.images[c.image], inp.merge)) + [VisionEnd]
    case Video => [VisionStart] + Copies(VideoHolder, GridLen(inp.videos[c.video], inp.merge)) + [VisionEnd]
    case AudioVideo(mix) => [VisionStart, AudioStart] + HeldMix(mix) + [AudioEnd, VisionEnd]
  }

  lemma WrappedBecomes(open: seq<Token>, body: seq<Token>, close: seq<Token>, final: seq<Token>)
    requires forall i | 0 <= i < |open| :: Unheld(open[i]) == open[i] && !IsMark(open[i])
    requires forall i | 0 <= i < |close| :: Unheld(close[i]) == close[i] && !IsMark(close[i])
    requires |final| == |body| && forall i | 0 <= i < |body| :: final[i] == Unheld(body[i]) && !IsMark(body[i])
    ensures Unhold(open + body + close) == open + final + close
    ensures forall i | 0 <= i < |open + body + close| :: !IsMark((open + body + close)[i])
  {
  }

  lemma HeldBecomes(m: Media, inp: Inputs, c: Cursor)
    requires GoodMedia(m, inp, c)
    ensures Unhold(HeldMedia(m, inp, c)) == MediaTokens(m, inp, c)
    ensures forall i | 0 <= i < |HeldMedia(m, inp, c)| :: !IsMark(HeldMedia(m, inp, c)[i])
  {
    hide FeatLen, GridLen, GoodGrid, Unhold, Mixed, HeldMix, Copies;
    match m
    case Audio =>
      var n := FeatLen(inp.audios[c.audio]);
      WrappedBecomes([AudioStart], Copies(AudioHolder, n), [AudioEnd], Copies(AudioPad, n));
    case Image =>
      var n := GridLen(inp.images[c.image], inp.merge);
      WrappedBecomes([VisionStart], Copies(ImageHolder, n), [VisionEnd], Copies(ImagePad, n));
    case Video =>
      var n := GridLen(inp.videos[c.video], inp.merge);
      WrappedBecomes([VisionStart], Copies(VideoHolder, n), [VisionEnd], Copies(VideoPad, n));
    case AudioVideo(mix) =>
      WrappedBecomes([VisionStart, AudioStart], HeldMix(mix), [AudioEnd, VisionEnd], Mixed(mix));
  }

  lemma DressedBecomes(bare: bool, held: seq<Token>, final: seq<Token>)
    requires Unhold(held) == final && forall i | 0 <= i < |held| :: !IsMark(held[i])
    ensures Unhold(Dressed(bare, held)) == Dressed(bare, final)
    ensures forall i | 0 <= i < |Dressed(bare, held)| :: !IsMark(Dressed(bare, held)[i])
  {
  }

  /** Expanding the next marker: `sample.replace` finds it because all earlier ones became placeholders. */
  method ExpandMark(s: seq<Token>, mark: Token, cfg: Config, c0: Cursor,
                    ghost done: seq<Token>, ghost k: Kind, ghost bare: bool, ghost rest: seq<Token>)
    returns (r: seq<Token>, c: Cursor)
    requires Supplied(k, cfg, c0) && mark == Mark(k)[1] && !(bare && k == VideoKind && cfg.inp.useAudioInVideo)
    requires (forall i | 0 <= i < |done| :: !IsMark(done[i])) && s == done + (Dressed(bare, Mark(k)) + rest)
    ensures GoodMedia(MediaFor(k, cfg, c0), cfg.inp, c0)
    ensures r == done + (Dressed(bare, HeldMedia(MediaFor(k, cfg, c0), cfg.inp, c0)) + rest)
    ensures c == Next(MediaFor(k, cfg, c0), c0)
  {
    hide FeatLen, GridLen, GoodGrid, Interleaved, ReplaceFirst, GridTimes, Rate, Dressed;
    MediaIsGood(k, cfg, c0);
    var inp := cfg.inp;
    c := c0;
    if mark == AudioPad {
      var held := Copies(AudioHolder, FeatLen(inp.audios[c0.audio]));
      r := ReplaceFirst(s, [AudioPad], held);
      c := c.(audio := c0.audio + 1);
      SingleMark(done, k, bare, held, rest);
    } else if mark == ImagePad {
      var held := Copies(ImageHolder, GridLen(inp.images[c0.image], inp.merge));
      r := ReplaceFirst(s, [ImagePad], held);
      c := c.(image := c0.image + 1);
      SingleMark(done, k, bare, held, rest);
    } else if !inp.useAudioInVideo {
      var held := Copies(VideoHolder, GridLen(inp.videos[c0.video], inp.merge));
      r := ReplaceFirst(s, [VideoPad], held);
      c := c.(video := c0.video + 1);
      SingleMark(done, k, bare, held, rest);
    } else {
      var mix := Interleave(GridTimes(inp.videos[c0.video], inp.merge, Rate(cfg, c0)), FeatLen(inp.audios[c0.audio]));
      var held := [VisionStart, AudioStart] + HeldMix(mix) + [AudioEnd, VisionEnd];
      r := ReplaceFirst(s, [VisionStart, VideoPad, VisionEnd], held);
      c := c.(audio := c0.audio + 1, video := c0.video + 1);
      DressedWrapped(Mark(k));
      DressedWrapped(held);
      ReplaceHere(done, Mark(k), rest, held, 1);
    }
  }

  lemma DressedWrapped(s: seq<Token>)
    ensures Dressed(false, s) == s
  {
  }

  lemma Resplit(done: seq<Token>, m: seq<Token>, rest: seq<Token>)
    requires |m| == 3
    ensures done + (m + rest) == (done + [m[0]]) + ([m[1]] + ([m[2]] + rest))
  {
  }

  lemma Rejoin(done: seq<Token>, x: Token, held: seq<Token>, y: Token, rest: seq<Token>)
    ensures (done + [x]) + (held + ([y] + rest)) == done + ([x] + held + [y] + rest)
  {
  }

  lemma SingleMark(done: seq<Token>, k: Kind, bare: bool, held: seq<Token>, rest: seq<Token>)
    requires forall i | 0 <= i < |done| :: !IsMark(done[i])
    ensures ReplaceFirst(done + (Dressed(bare, Mark(k)) + rest), [Mark(k)[1]], held)
         == done + (Dressed(bare, [Mark(k)[0]] + held + [Mark(k)[2]]) + rest)
  {
    hide ReplaceFirst;
    var m := Mark(k);
    if bare {
      DressedBare(m[0], held, m[2]);
      DressedBare(m[0], [m[1]], m[2]);
      assert m == [m[0]] + [m[1]] + [m[2]];
      ReplaceHere(done, [m[1]], rest, held, 0);
    } else {
      Resplit(done, m, rest);
      Rejoin(done, m[0], held, m[2], rest);
      ReplaceHere(done + [m[0]], [m[1]], [m[2]] + rest, held, 0);
    }
  }

  lemma {:induction false} MarkersQuiet(text: seq<Token>, rest: seq<Token>)
    requires Quiet(text)
    ensures Markers(text + rest) == Markers(rest)
  {
    if text == [] {
      assert text + rest == rest;
    } else {
      assert (text + rest)[1..] == text[1..] + rest;
      MarkersQuiet(text[1..], rest);
    }
  }

  function MarksOf(parts: seq<Part>): seq<Token> {
    if parts == [] then [] else [Mark(parts[0].kind)[1]] + MarksOf(parts[1..])
  }

  lemma {:induction false} MarkersOfDraft(parts: seq<Part>, tail: seq<Token>, cfg: Config, c: Cursor)
    requires AllSupplied(parts, cfg, c) && Quiet(tail)
    ensures Markers(Draft(parts, tail)) == MarksOf(parts) && |MarksOf(parts)| == |parts|
  {
    if parts == [] {
      MarkersQuiet(tail, []);
      assert tail + [] == tail;
    } else {
      hide Supplied, MediaFor, Quiet, Dressed;
      MarkersOfDraft(parts[1..], tail, cfg, Next(MediaFor(parts[0].kind, cfg, c), c));
      MarkersQuiet(parts[0].text, Dressed(parts[0].bare, Mark(parts[0].kind)) + Draft(parts[1..], tail));
      MarkedOnce(parts[0].kind, parts[0].bare, Draft(parts[1..], tail));
    }
  }

  lemma MarkersCons(t: Token, rest: seq<Token>)
    ensures Markers([t] + rest) == (if IsMark(t) then [t] else []) + Markers(rest)
  {
    assert ([t] + rest)[1..] == rest;
  }

  lemma MarkedOnce(k: Kind, bare: bool, rest: seq<Token>)
    ensures Markers(Dressed(bare, Mark(k)) + rest) == [Mark(k)[1]] + Markers(rest)
  {
    hide Markers;
    var m := Mark(k);
    MarkersCons(m[1], rest);
    if bare {
      assert Dressed(bare, m) == [m[1]];
    } else {
      MarkersCons(m[0], [m[1]] + ([m[2]] + rest));
      MarkersCons(m[1], [m[2]] + rest);
      MarkersCons(m[2], rest);
      assert m + rest == [m[0]] + ([m[1]] + ([m[2]] + rest));
    }
  }

  lemma MarksStep(marks: seq<Token>, k: nat, parts: seq<Part>)
    requires k < |marks| && |marks| == k + |parts| && marks[k..] == MarksOf(parts)
    ensures marks[k] == Mark(parts[0].kind)[1] && marks[k + 1..] == MarksOf(parts[1..])
  {
    assert marks[k + 1..] == marks[k..][1..];
  }

  lemma UnholdConcat(a: seq<Token>, b: seq<Token>)
    ensures Unhold(a + b) == Unhold(a) + Unhold(b)
  {
  }

  lemma UnholdQuiet(s: seq<Token>)
    requires Quiet(s)
    ensures Unhold(s) == s
  {
  }

  /** The part of the sample done so far carries no marker and, with the rest expanded, makes the whole. */
  ghost predicate Expanding(s: seq<Token>, done: seq<Token>, parts: seq<Part>, tail: seq<Token>, cfg: Config,
                            c: Cursor, whole: seq<Token>)
  {
    && (forall i | 0 <= i < |done| :: !IsMark(done[i]))
    && AllSupplied(parts, cfg, c) && s == done + Draft(parts, tail)
    && Unhold(done) + Whole(parts, tail, cfg, c) == whole
  }

  lemma {:induction false} ExpandingNext(done: seq<Token>, parts: seq<Part>, tail: seq<Token>, cfg: Config, c: Cursor,
                      whole: seq<Token>, held: seq<Token>)
    requires parts != [] && Expanding(done + Draft(parts, tail), done, parts, tail, cfg, c, whole)
    requires var m := MediaFor(parts[0].kind, cfg, c);
      GoodMedia(m, cfg.inp, c) && held == Dressed(parts[0].bare, HeldMedia(m, cfg.inp, c))
    ensures var text := parts[0].text;
      && var next := done + text + held; var rest := Draft(parts[1..], tail);
      && (done + text) + (held + rest) == next + rest
      && Expanding(next + rest, next, parts[1..], tail, cfg, Next(MediaFor(parts[0].kind, cfg, c), c), whole)
  {
    hide GoodMedia, MediaFor, HeldMedia, MediaTokens, Supplied, Unhold, Dressed;
    var m, text := MediaFor(parts[0].kind, cfg, c), parts[0].text;
    HeldBecomes(m, cfg.inp, c);
    DressedBecomes(parts[0].bare, HeldMedia(m, cfg.inp, c), MediaTokens(m, cfg.inp, c));
    UnholdConcat(done + text, held);
    UnholdConcat(done, text);
    UnholdQuiet(text);
    var row, media := Whole(parts[1..], tail, cfg, Next(m, c)), Dressed(parts[0].bare, MediaTokens(m, cfg.inp, c));
    assert Unhold(done) + (text + (media + row)) == Unhold(done) + text + media + row;
  }

  lemma ExpandingStart(parts: seq<Part>, tail: seq<Token>, cfg: Config, c: Cursor)
    requires AllSupplied(parts, cfg, c)
    ensures Expanding(Draft(parts, tail), [], parts, tail, cfg, c, Whole(parts, tail, cfg, c))
  {
    assert Unhold([]) == [];
  }

  lemma ExpandingShape(s: seq<Token>, done: seq<Token>, parts: seq<Part>, tail: seq<Token>, cfg: Config,
                       c: Cursor, whole: seq<Token>)
    requires parts != [] && Expanding(s, done, parts, tail, cfg, c, whole)
    ensures Supplied(parts[0].kind, cfg, c)
    ensures !(parts[0].bare && parts[0].kind == VideoKind && cfg.inp.useAudioInVideo)
    ensures s == (done + parts[0].text) + (Dressed(parts[0].bare, Mark(parts[0].kind)) + Draft(parts[1..], tail))
    ensures s == done + Draft(parts, tail)
    ensures forall i | 0 <= i < |done + parts[0].text| :: !IsMark((done + parts[0].text)[i])
  {
    hide Supplied, MediaFor, Unhold, Whole, Dressed, Mark;
  }

  lemma NothingLeft(cfg: Config, c: Cursor)
    ensures CursorAfter(ItemsOf([], cfg, c), c) == c
  {
  }

  lemma ExpandingEnd(s: seq<Token>, done: seq<Token>, tail: seq<Token>, cfg: Config, c: Cursor, whole: seq<Token>)
    requires Quiet(tail) && Expanding(s, done, [], tail, cfg, c, whole)
    ensures Unhold(s) == whole
  {
    UnholdConcat(done, tail);
    UnholdQuiet(tail);
  }

  lemma CursorStep(parts: seq<Part>, cfg: Config, c: Cursor)
    requires parts != [] && AllSupplied(parts, cfg, c)
    ensures var next := Next(MediaFor(parts[0].kind, cfg, c), c);
      && AllSupplied(parts[1..], cfg, next)
      && CursorAfter(ItemsOf(parts, cfg, c), c) == CursorAfter(ItemsOf(parts[1..], cfg, next), next)
  {
    hide Supplied, MediaFor;
  }

  // ---- The expanded sample, token by token ----

  ghost predicate VideoSlot(s: seq<Token>, g: Grid, merge: nat, rate: real, n: nat, f: nat, y: nat, x: nat)
    requires merge > 0
  {
    var at := PatchAt(g, merge, f, y, x) + Sooner(0, n, f as real * rate);
    at < |s| && s[at] == VideoPad
  }

  ghost predicate AudioSlot(s: seq<Token>, g: Grid, merge: nat, rate: real, j: nat)
    requires merge > 0
  {
    var at := j + FrameSize(g, merge) * FramesBy(g.t, rate, j as real);
    at < |s| && s[at] == AudioPad
  }

  /** A video's tokens and its audio's, each at its time. */
  ghost predicate MixSlots(s: seq<Token>, g: Grid, merge: nat, rate: real, n: nat)
    requires merge > 0
  {
    && |s| == Patches(g, merge) + n
    && (forall f: nat, y: nat, x: nat | f < g.t && y < g.h / merge && x < g.w / merge ::
          VideoSlot(s, g, merge, rate, n, f, y, x))
    && forall j: nat | j < n :: AudioSlot(s, g, merge, rate, j)
  }

  /** The tokens a marker stands for: one per encoder row, and for a video with its audio, each at its time. */
  ghost predicate Padded(s: seq<Token>, k: Kind, cfg: Config, c: Cursor)
    requires Supplied(k, cfg, c)
  {
    var inp := cfg.inp;
    match k
    case AudioKind => |s| == FeatLen(inp.audios[c.audio]) && forall i | 0 <= i < |s| :: s[i] == AudioPad
    case ImageKind => |s| == Patches(inp.images[c.image], inp.merge) && forall i | 0 <= i < |s| :: s[i] == ImagePad
    case VideoKind =>
      var g, rate := inp.videos[c.video], inp.rates[c.video] * cfg.perSecond;
      if inp.useAudioInVideo then
        MixSlots(s, g, inp.merge, rate, FeatLen(inp.audios[c.audio]))
      else |s| == Patches(g, inp.merge) && forall i | 0 <= i < |s| :: s[i] == VideoPad
  }

  function Opens(p: Part, both: bool): seq<Token> {
    if p.bare then []
    else match p.kind
      case AudioKind => [AudioStart]
      case ImageKind => [VisionStart]
      case VideoKind => if both then [VisionStart, AudioStart] else [VisionStart]
  }

  function Closes(p: Part, both: bool): seq<Token> {
    if p.bare then []
    else match p.kind
      case AudioKind => [AudioEnd]
      case ImageKind => [VisionEnd]
      case VideoKind => if both then [AudioEnd, VisionEnd] else [VisionEnd]
  }

  /** The inputs left after a marker. */
  function Used(k: Kind, both: bool, c: Cursor): Cursor {
    match k
    case AudioKind => Cursor(c.image, c.video, c.audio + 1)
    case ImageKind => Cursor(c.image + 1, c.video, c.audio)
    case VideoKind => Cursor(c.image, c.video + 1, if both then c.audio + 1 else c.audio)
  }

  /** What the marker `p` stands for, its own markers included. */
  ghost predicate Wrapped(s: seq<Token>, body: seq<Token>, p: Part, cfg: Config, c: Cursor)
    requires Supplied(p.kind, cfg, c)
  {
    var both := cfg.inp.useAudioInVideo;
    s == Opens(p, both) + body + Closes(p, both) && Padded(body, p.kind, cfg, c)
  }

  /** The expanded sample: each text as it was, each marker replaced by its tokens, in order, from the inputs the
      earlier markers leave. */
  ghost predicate Spelled(s: seq<Token>, parts: seq<Part>, tail: seq<Token>, cfg: Config, c: Cursor)
    decreases |parts|
  {
    if parts == [] then s == tail
    else
      && Supplied(parts[0].kind, cfg, c)
      && exists media, body, rest ::
           && s == parts[0].text + (media + rest)
           && Wrapped(media, body, parts[0], cfg, c)
           && Spelled(rest, parts[1..], tail, cfg, Used(parts[0].kind, cfg.inp.useAudioInVideo, c))
  }
  lemma TimeOf(g: Grid, merge: nat, rate: real, f: nat, y: nat, x: nat)
    requires GoodGrid(g, merge) && rate >= 0.0 && f < g.t && y < g.h / merge && x < g.w / merge
    ensures PatchAt(g, merge, f, y, x) < |GridTimes(g, merge, rate)| == Patches(g, merge)
    ensures GridTimes(g, merge, rate)[PatchAt(g, merge, f, y, x)] == f as real * rate
  {
    hide GridBlock, PatchAt, Patches, VideoTimes, Timed;
    BlockAt(g, merge, rate, 0.0, f, y, x);
    BlockTimed(g, merge, rate, 0.0);
    PatchFits(g, merge, f, y, x);
    PatchesIs(g, merge);
    TimesLength(g, merge, rate);
    TimedAt(GridBlock(g, merge, rate, 0.0), GridTimes(g, merge, rate), 0.0, PatchAt(g, merge, f, y, x));
  }

  lemma TimesLength(g: Grid, merge: nat, rate: real)
    requires merge > 0
    ensures |GridTimes(g, merge, rate)| == Patches(g, merge)
  {
  }

  lemma VideoSlotFilled(g: Grid, merge: nat, rate: real, n: nat, f: nat, y: nat, x: nat)
    requires GoodGrid(g, merge) && rate >= 0.0 && f < g.t && y < g.h / merge && x < g.w / merge
    ensures VideoSlot(Mixed(Interleaved(GridTimes(g, merge, rate), n, 0, 0)), g, merge, rate, n, f, y, x)
  {
    hide Interleaved, GridTimes, Patches, PatchAt, Mixed, Sooner;
    TimeOf(g, merge, rate, f, y, x);
    TimesRise(g, merge, rate);
    InterleavedVideoAt(GridTimes(g, merge, rate), n, 0, 0, PatchAt(g, merge, f, y, x));
  }

  lemma AudioSlotFilled(g: Grid, merge: nat, rate: real, n: nat, j: nat)
    requires merge > 0 && rate >= 0.0 && j < n
    ensures AudioSlot(Mixed(Interleaved(GridTimes(g, merge, rate), n, 0, 0)), g, merge, rate, j)
  {
    hide Interleaved, GridTimes, FrameSize, Mixed, UpTo, FramesBy;
    TimesRise(g, merge, rate);
    FrameCount(g, merge, rate, j as real);
    InterleavedAudioAt(GridTimes(g, merge, rate), n, 0, 0, j);
  }

  /** The mixed tokens of a video with its audio stand at their times. */
  lemma MixIsPadded(cfg: Config, c: Cursor)
    requires Supplied(VideoKind, cfg, c) && cfg.inp.useAudioInVideo && cfg.perSecond >= 0.0
    ensures MediaFor(VideoKind, cfg, c).AudioVideo?
    ensures Padded(Mixed(MediaFor(VideoKind, cfg, c).mix), VideoKind, cfg, c)
  {
    hide FeatLen, GoodGrid, Interleaved, GridTimes, Mixed, MixSlots;
    var inp := cfg.inp;
    Scale(0.0, inp.rates[c.video], cfg.perSecond);
    var g, rate, n := inp.videos[c.video], inp.rates[c.video] * cfg.perSecond, FeatLen(inp.audios[c.audio]);
    assert Rate(cfg, c) == rate;
    MixFills(g, inp.merge, Rate(cfg, c), n);
    assert MediaFor(VideoKind, cfg, c) == AudioVideo(Interleaved(GridTimes(g, inp.merge, Rate(cfg, c)), n, 0, 0));
  }

  lemma MixFills(g: Grid, merge: nat, rate: real, n: nat)
    requires GoodGrid(g, merge) && rate >= 0.0
    ensures MixSlots(Mixed(Interleaved(GridTimes(g, merge, rate), n, 0, 0)), g, merge, rate, n)
  {
    hide Interleaved, GridTimes, Patches, Mixed, Trues, VideoSlot, AudioSlot;
    TimesLength(g, merge, rate);
    InterleavedCounts(GridTimes(g, merge, rate), n, 0, 0);
    var body := Mixed(Interleaved(GridTimes(g, merge, rate), n, 0, 0));
    forall f: nat, y: nat, x: nat | f < g.t && y < g.h / merge && x < g.w / merge
      ensures VideoSlot(body, g, merge, rate, n, f, y, x)
    {
      VideoSlotFilled(g, merge, rate, n, f, y, x);
    }
    forall j: nat | j < n ensures AudioSlot(body, g, merge, rate, j) {
      AudioSlotFilled(g, merge, rate, n, j);
    }
  }

  lemma TimesRise(g: Grid, merge: nat, rate: real)
    requires merge > 0 && rate >= 0.0
    ensures Sorted(GridTimes(g, merge, rate))
  {
    VideoTimesSorted(g.t, (g.h / merge) * (g.w / merge), rate);
  }

  lemma FrameCount(g: Grid, merge: nat, rate: real, t: real)
    requires merge > 0
    ensures UpTo(GridTimes(g, merge, rate), 0, t) == FrameSize(g, merge) * FramesBy(g.t, rate, t)
  {
    UpToFrames(g.t, (g.h / merge) * (g.w / merge), rate, t);
  }

  lemma MediaIsPadded(k: Kind, cfg: Config, c: Cursor) returns (body: seq<Token>)
    requires Supplied(k, cfg, c) && cfg.perSecond >= 0.0
    ensures GoodMedia(MediaFor(k, cfg, c), cfg.inp, c) && Padded(body, k, cfg, c)
    ensures var p, both := Part([], k, false), cfg.inp.useAudioInVideo;
      MediaTokens(MediaFor(k, cfg, c), cfg.inp, c) == Opens(p, both) + body + Closes(p, both)
  {
    hide FeatLen, GoodGrid, Interleaved, GridTimes, Patches, Mixed, GridLen, MixSlots;
    MediaIsGood(k, cfg, c);
    var inp := cfg.inp;
    match k
    case AudioKind => body := Copies(AudioPad, FeatLen(inp.audios[c.audio]));
    case ImageKind =>
      PatchesIs(inp.images[c.image], inp.merge);
      body := Copies(ImagePad, Patches(inp.images[c.image], inp.merge));
    case VideoKind =>
      if inp.useAudioInVideo {
        MixIsPadded(cfg, c);
        body := Mixed(MediaFor(VideoKind, cfg, c).mix);
      } else {
        PatchesIs(inp.videos[c.video], inp.merge);
        body := Copies(VideoPad, Patches(inp.videos[c.video], inp.merge));
      }
  }

  lemma MediaIsWrapped(p: Part, cfg: Config, c: Cursor) returns (body: seq<Token>)
    requires Supplied(p.kind, cfg, c) && cfg.perSecond >= 0.0
    requires !(p.bare && p.kind == VideoKind && cfg.inp.useAudioInVideo)
    ensures GoodMedia(MediaFor(p.kind, cfg, c), cfg.inp, c)
    ensures Wrapped(Dressed(p.bare, MediaTokens(MediaFor(p.kind, cfg, c), cfg.inp, c)), body, p, cfg, c)
    ensures Next(MediaFor(p.kind, cfg, c), c) == Used(p.kind, cfg.inp.useAudioInVideo, c)
  {
    hide Padded, MediaTokens, Dressed;
    body := MediaIsPadded(p.kind, cfg, c);
    var both, full := cfg.inp.useAudioInVideo, Part([], p.kind, false);
    DressedWrapped(MediaTokens(MediaFor(p.kind, cfg, c), cfg.inp, c));
    if p.bare {
      DressedBare(Opens(full, both)[0], body, Closes(full, both)[0]);
      assert Opens(full, both) == [Opens(full, both)[0]] && Closes(full, both) == [Closes(full, both)[0]];
      assert Opens(p, both) + body + Closes(p, both) == body;
    }
  }

  lemma {:induction false} WholeIsSpelled(parts: seq<Part>, tail: seq<Token>, cfg: Config, c: Cursor)
    requires AllSupplied(parts, cfg, c) && cfg.perSecond >= 0.0
    ensures Spelled(Whole(parts, tail, cfg, c), parts, tail, cfg, c)
  {
    hide Supplied, MediaFor, Quiet, MediaTokens, Wrapped, Dressed, GoodMedia;
    if parts != [] {
      var p := parts[0];
      var body := MediaIsWrapped(p, cfg, c);
      var m := MediaFor(p.kind, cfg, c);
      WholeIsSpelled(parts[1..], tail, cfg, Next(m, c));
      assert Wrapped(Dressed(p.bare, MediaTokens(m, cfg.inp, c)), body, p, cfg, c);
    }
  }

  /** One sample: every marker expanded in order, then the placeholders turned into tokens. The next sample takes
      up the iterators here. */
  method ExpandSample(sample: seq<Token>, cfg: Config, c0: Cursor, ghost parts: seq<Part>, ghost tail: seq<Token>)
    returns (out: seq<Token>, c: Cursor)
    requires AllSupplied(parts, cfg, c0) && Quiet(tail) && sample == Draft(parts, tail)
    ensures out == Whole(parts, tail, cfg, c0)
    ensures cfg.perSecond >= 0.0 ==> Spelled(out, parts, tail, cfg, c0)
    ensures c == CursorAfter(ItemsOf(parts, cfg, c0), c0)
  {
    hide Supplied, AllSupplied, MediaFor, GoodMedia, Expanding, HeldMedia, Unhold, Whole, ItemsOf, CursorAfter;
    hide Draft, Mark, MarksOf, Markers, Quiet, Dressed, Spelled;
    if cfg.perSecond >= 0.0 { WholeIsSpelled(parts, tail, cfg, c0); }
    MarkersOfDraft(parts, tail, cfg, c0);
    ExpandingStart(parts, tail, cfg, c0);
    var marks := Markers(sample);
    out, c := sample, c0;
    ghost var done: seq<Token>, rest := [], parts;
    ghost var whole := Whole(parts, tail, cfg, c0);
    for k := 0 to |marks|
      invariant |marks| == k + |rest| && marks[k..] == MarksOf(rest)
      invariant AllSupplied(rest, cfg, c) && Expanding(out, done, rest, tail, cfg, c, whole)
      invariant CursorAfter(ItemsOf(rest, cfg, c), c) == CursorAfter(ItemsOf(parts, cfg, c0), c0)
    {
      ExpandingShape(out, done, rest, tail, cfg, c, whole);
      ghost var text, m := rest[0].text, MediaFor(rest[0].kind, cfg, c);
      CursorStep(rest, cfg, c);
      MarksStep(marks, k, rest);
      ghost var before, was := done, c;
      out, c := ExpandMark(
        out, marks[k], cfg, c, done + text, rest[0].kind, rest[0].bare, Draft(rest[1..], tail));
      ghost var held := Dressed(rest[0].bare, HeldMedia(m, cfg.inp, was));
      ExpandingNext(before, rest, tail, cfg, was, whole, held);
      done := before + text + held;
      rest := rest[1..];
    }
    ExpandingEnd(out, done, tail, cfg, c, whole);
    NothingLeft(cfg, c);
    out := Unhold(out);
  }
}
