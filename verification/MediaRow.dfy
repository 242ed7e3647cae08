/** Token rows made of text and media segments, and the batch-wide media inputs they draw on. */
module MediaRow {
  import opened Sequences
  import opened AudioLengths

  datatype Token = Word(id: nat) | ImagePad | VideoPad | AudioPad | VisionStart | VisionEnd | AudioStart | AudioEnd
                 | ImageHolder | VideoHolder | AudioHolder

  datatype Grid = Grid(t: nat, h: nat, w: nat)

  /** One list per kind of media, in the order the batch consumes them. */
  datatype Inputs = Inputs(
    merge: nat, images: seq<Grid>, videos: seq<Grid>, rates: seq<real>, audios: seq<nat>, useAudioInVideo: bool)

  /** How many inputs of each kind were consumed. */
  datatype Cursor = Cursor(image: nat, video: nat, audio: nat)

  /** `mix` says, slot by slot, whether an audio-in-video segment holds a video token. */
  datatype Media = Audio | Image | Video | AudioVideo(mix: seq<bool>)

  /** Text (possibly empty) followed by one media segment. */
  datatype Item = Item(text: seq<Token>, media: Media)

  predicate Plain(text: seq<Token>) {
    forall i | 0 <= i < |text| :: text[i].Word?
  }

  function GridLen(g: Grid, merge: nat): nat
    requires merge > 0
  {
    g.t * g.h * g.w / (merge * merge)
  }

  function Next(m: Media, c: Cursor): Cursor {
    match m
    case Audio => c.(audio := c.audio + 1)
    case Image => c.(image := c.image + 1)
    case Video => c.(video := c.video + 1)
    case AudioVideo(_) => c.(audio := c.audio + 1, video := c.video + 1)
  }

  function Trues(mix: seq<bool>): nat {
    if mix == [] then 0 else (if mix[0] then 1 else 0) + Trues(mix[1..])
  }

  predicate GoodGrid(g: Grid, merge: nat) {
    merge > 0 && g.h % merge == 0 && g.w % merge == 0 && g.t >= 1 && g.h >= 1 && g.w >= 1
  }

  /** The media segment has its inputs, none is empty, and the row's mode allows it. */
  predicate GoodMedia(m: Media, inp: Inputs, c: Cursor) {
    inp.merge > 0 &&
    match m
    case Audio => c.audio < |inp.audios| && inp.audios[c.audio] >= 1
    case Image => c.image < |inp.images| && GoodGrid(inp.images[c.image], inp.merge)
    case Video =>
      !inp.useAudioInVideo && c.video < |inp.videos| && c.video < |inp.rates|
      && GoodGrid(inp.videos[c.video], inp.merge) && inp.rates[c.video] >= 0.0
    case AudioVideo(mix) =>
      inp.useAudioInVideo && c.video < |inp.videos| && c.video < |inp.rates| && c.audio < |inp.audios|
      && GoodGrid(inp.videos[c.video], inp.merge) && inp.rates[c.video] >= 0.0 && inp.audios[c.audio] >= 1
      && Trues(mix) == GridLen(inp.videos[c.video], inp.merge)
      && |mix| == Trues(mix) + FeatLen(inp.audios[c.audio])
  }

  function Mixed(mix: seq<bool>): (r: seq<Token>)
    ensures |r| == |mix| && forall i | 0 <= i < |mix| :: r[i] == if mix[i] then VideoPad else AudioPad
  {
    if mix == [] then [] else [if mix[0] then VideoPad else AudioPad] + Mixed(mix[1..])
  }

  function MediaTokens(m: Media, inp: Inputs, c: Cursor): seq<Token>
    requires GoodMedia(m, inp, c)
  {
    match m
    case Audio => [AudioStart] + Copies(AudioPad, FeatLen(inp.audios[c.audio])) + [AudioEnd]
    case Image => [VisionStart] + Copies(ImagePad, GridLen(inp.images[c.image], inp.merge)) + [VisionEnd]
    case Video => [VisionStart] + Copies(VideoPad, GridLen(inp.videos[c.video], inp.merge)) + [VisionEnd]
    case AudioVideo(mix) => [VisionStart, AudioStart] + Mixed(mix) + [AudioEnd, VisionEnd]
  }

  predicate GoodItems(items: seq<Item>, inp: Inputs, c: Cursor) {
    items == []
    || (Plain(items[0].text) && GoodMedia(items[0].media, inp, c)
        && GoodItems(items[1..], inp, Next(items[0].media, c)))
  }

  /** The tokens of a whole row: every item, then the closing text. */
  function RowTokens(items: seq<Item>, tail: seq<Token>, inp: Inputs, c: Cursor): seq<Token>
    requires GoodItems(items, inp, c)
  {
    if items == [] then tail
    else
      items[0].text + (MediaTokens(items[0].media, inp, c) + RowTokens(items[1..], tail, inp, Next(items[0].media, c)))
  }

  function CursorAfter(items: seq<Item>, c: Cursor): Cursor {
    if items == [] then c else CursorAfter(items[1..], Next(items[0].media, c))
  }
}
