/** The DSML tool-call format: a printer and a delimiter-scanning parser.

    JSON enters as a codec. An argument is a string, written as it stands, or a value written
    through `dumps`; the parser keeps that distinction through the `string="..."` mark. */
module Dsml {
  import opened Wrappers
  import opened Scanner

  const INVOKE_OPEN := "<\U{FF5C}DSML\U{FF5C}invoke"
  const INVOKE_CLOSE := "</\U{FF5C}DSML\U{FF5C}invoke>"
  const PARAM_OPEN := "<\U{FF5C}DSML\U{FF5C}parameter"
  const PARAM_CLOSE := "</\U{FF5C}DSML\U{FF5C}parameter>"
  const CALLS_OPEN := "<\U{FF5C}DSML\U{FF5C}tool_calls>"
  const CALLS_CLOSE := "</\U{FF5C}DSML\U{FF5C}tool_calls>"

  datatype Argument<+J> = Text(text: string) | Data(value: J)
  datatype Item<+J> = Item(key: string, arg: Argument<J>)
  datatype Call<+J> = Call(name: string, arguments: seq<Item<J>>)
  datatype Parsed<+J> = Functions(calls: seq<Call<J>>) | ReactFallback

  datatype Codec<!J> = Codec(dumps: J -> string, loads: string -> Option<J>)

  ghost predicate Lawful<J(!new)>(codec: Codec<J>) {
    forall v :: codec.loads(codec.dumps(v)) == Some(v)
  }

  // ---- Printing ----

  function Join(lines: seq<string>, sep: string): string {
    if lines == [] then "" else if |lines| == 1 then lines[0]
    else lines[0] + sep + Join(lines[1..], sep)
  }

  function TextOf<J>(codec: Codec<J>, a: Argument<J>): string {
    match a case Text(t) => t case Data(v) => codec.dumps(v)
  }

  function Flag<J>(a: Argument<J>): string {
    if a.Text? then "true" else "false"
  }

  /** An attribute followed by `rest`. */
  function Attr(name: string, value: string, rest: string): string {
    " " + (name + "=\"" + (value + ("\"" + rest)))
  }

  /** A parameter element followed by `rest`. */
  function Parameter<J>(codec: Codec<J>, i: Item<J>, rest: string): string {
    PARAM_OPEN + Attr("name", i.key, Attr("string", Flag(i.arg), ">" + (TextOf(codec, i.arg) + (PARAM_CLOSE + rest))))
  }

  /** The parameter elements of a call, one a line, followed by `rest`. */
  function Parameters<J>(codec: Codec<J>, items: seq<Item<J>>, rest: string): string {
    if items == [] then rest
    else Parameter(codec, items[0], (if |items| == 1 then "" else "\n") + Parameters(codec, items[1..], rest))
  }

  /** An invocation element followed by `rest`. */
  function Invocation<J>(codec: Codec<J>, c: Call<J>, rest: string): string {
    INVOKE_OPEN + Attr("name", c.name, ">" + ("\n" + Parameters(codec, c.arguments, "\n" + (INVOKE_CLOSE + rest))))
  }

  /** The invocation elements, one after a newline each, followed by `rest`. */
  function Invocations<J>(codec: Codec<J>, calls: seq<Call<J>>, rest: string): string {
    if calls == [] then rest
    else Invocation(codec, calls[0], (if |calls| == 1 then "" else "\n") + Invocations(codec, calls[1..], rest))
  }

  function Printed<J>(codec: Codec<J>, calls: seq<Call<J>>): string {
    CALLS_OPEN + ("\n" + Invocations(codec, calls, "\n" + CALLS_CLOSE))
  }

  // ---- Parsing ----

  datatype AttrMatch = AttrMatch(value: string, rest: string)
  datatype InvokeMatch = InvokeMatch(name: string, block: string, rest: string)
  datatype ParamMatch = ParamMatch(key: string, flag: string, text: string, rest: string)

  /** Matches `\s+name="([^"]+)"` at the start of `t`. */
  function MatchAttr(name: string, t: string): (r: Option<AttrMatch>)
    ensures r.Some? ==> Quotable(r.value.value) && |r.value.rest| < |t|
  {
    var u := SkipSpace(t);
    if |u| == |t| then None
    else
      match Expect(name + "=\"", u)
      case None => None
      case Some(v) =>
        match Until("\"", v)
        case None => None
        case Some(s) =>
          FreeChar('"', s.before);
          if s.before == "" then None else Some(AttrMatch(s.before, s.after))
  }

  /** Matches one whole invocation at the start of `t`; the block is stripped of outer whitespace. */
  function MatchInvoke(t: string): (r: Option<InvokeMatch>)
    ensures r.Some? ==> Quotable(r.value.name) && Free(INVOKE_CLOSE, r.value.block) && |r.value.rest| < |t|
  {
    match Expect(INVOKE_OPEN, t)
    case None => None
    case Some(u) =>
      match MatchAttr("name", u)
      case None => None
      case Some(a) =>
        match Expect(">", a.rest)
        case None => None
        case Some(v) =>
          match Until(INVOKE_CLOSE, SkipSpace(v))
          case None => None
          case Some(s) =>
            FreeTrimEnd(INVOKE_CLOSE, s.before);
            Some(InvokeMatch(a.value, TrimEnd(s.before), s.after))
  }

  /** Matches one whole parameter at the start of `t`. */
  function MatchParameter(t: string): (r: Option<ParamMatch>)
    ensures r.Some? ==> Quotable(r.value.key) && Free(PARAM_CLOSE, r.value.text) && |r.value.rest| < |t|
  {
    match Expect(PARAM_OPEN, t)
    case None => None
    case Some(u) =>
      match MatchAttr("name", u)
      case None => None
      case Some(a) =>
        match MatchAttr("string", a.rest)
        case None => None
        case Some(f) =>
          match Expect(">", f.rest)
          case None => None
          case Some(v) =>
            if f.value != "true" && f.value != "false" then None
            else
              match Until(PARAM_CLOSE, v)
              case None => None
              case Some(s) => Some(ParamMatch(a.value, f.value, s.before, s.after))
  }

  function Decode<J>(codec: Codec<J>, flag: string, text: string): Argument<J> {
    if flag == "false" then
      match codec.loads(text)
      case Some(v) => Data(v)
      case None => Text(text)
    else Text(text)
  }

  /** Assignment into an insertion-ordered dictionary. */
  function SetItem<J>(d: seq<Item<J>>, i: Item<J>): seq<Item<J>> {
    if d == [] then [i]
    else if d[0].key == i.key then [i] + d[1..]
    else [d[0]] + SetItem(d[1..], i)
  }

  /** The dictionary the parameters of a block build, left to right, on top of `d`. */
  function ReadArguments<J>(codec: Codec<J>, d: seq<Item<J>>, t: string): seq<Item<J>>
    decreases |t|
  {
    if t == "" then d
    else
      match MatchParameter(t)
      case Some(m) => ReadArguments(codec, SetItem(d, Item(m.key, Decode(codec, m.flag, m.text))), m.rest)
      case None => ReadArguments(codec, d, t[1..])
  }

  function ReadCalls<J>(codec: Codec<J>, t: string): seq<Call<J>>
    decreases |t|
  {
    if t == "" then []
    else
      match MatchInvoke(t)
      case Some(m) => [Call(m.name, ReadArguments(codec, [], m.block))] + ReadCalls(codec, m.rest)
      case None => ReadCalls(codec, t[1..])
  }

  function ToolCalls<J>(codec: Codec<J>, response: string): Parsed<J> {
    var calls := ReadCalls(codec, response);
    if calls == [] then ReactFallback else Functions(calls)
  }

  // ---- What survives the trip ----

  predicate Quotable(s: string) {
    s != "" && '"' !in s
  }

  predicate DistinctKeys<J>(items: seq<Item<J>>) {
    forall i, j | 0 <= i < j < |items| :: items[i].key != items[j].key
  }

  predicate PrintableItem<J>(codec: Codec<J>, i: Item<J>) {
    && Quotable(i.key) && Free(INVOKE_CLOSE, i.key)
    && Free(INVOKE_CLOSE, TextOf(codec, i.arg)) && Free(PARAM_CLOSE, TextOf(codec, i.arg))
  }

  predicate Printable<J>(codec: Codec<J>, c: Call<J>) {
    && Quotable(c.name)
    && DistinctKeys(c.arguments)
    && forall i | 0 <= i < |c.arguments| :: PrintableItem(codec, c.arguments[i])
  }
}
