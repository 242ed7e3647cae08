/** Printing a list of tool calls and parsing the text gives the calls back when names, keys and value texts
    keep clear of the delimiters. */
module DsmlRoundTrip {
  import opened Wrappers
  import opened Scanner
  import opened Dsml

  lemma TagFacts()
    ensures INVOKE_CLOSE != "" && INVOKE_CLOSE[0] == '<' && '<' !in INVOKE_CLOSE[1..] && '"' !in INVOKE_CLOSE
    ensures '>' !in INVOKE_CLOSE[..|INVOKE_CLOSE| - 1] && '\n' !in INVOKE_CLOSE
    ensures PARAM_CLOSE != "" && PARAM_CLOSE[0] == '<' && '<' !in PARAM_CLOSE[1..]
  {
  }

  /** A printed attribute is read back whole, whatever follows it. */
  lemma AttrWritten(name: string, value: string, rest: string)
    requires name != "" && !IsSpace(name[0]) && Quotable(value)
    ensures MatchAttr(name, Attr(name, value, rest)) == Some(AttrMatch(value, rest))
  {
    var v := value + ("\"" + rest);
    var u := name + "=\"" + v;
    SkipSpaceRun(" ", u);
    ExpectWritten(name + "=\"", v);
    FreeChar('"', value);
    UntilWritten("\"", value, rest);
  }

  lemma ParameterWritten<J>(codec: Codec<J>, i: Item<J>, rest: string)
    requires Quotable(i.key) && Free(PARAM_CLOSE, TextOf(codec, i.arg))
    ensures MatchParameter(Parameter(codec, i, rest))
         == Some(ParamMatch(i.key, Flag(i.arg), TextOf(codec, i.arg), rest))
  {
    var text := TextOf(codec, i.arg);
    var v := text + (PARAM_CLOSE + rest);
    var a := Attr("string", Flag(i.arg), ">" + v);
    ExpectWritten(PARAM_OPEN, Attr("name", i.key, a));
    AttrWritten("name", i.key, a);
    AttrWritten("string", Flag(i.arg), ">" + v);
    ExpectWritten(">", v);
    TagFacts();
    UntilWritten(PARAM_CLOSE, text, rest);
  }

  // ---- Printed text read back ----

  lemma {:induction false} SetNew<J>(d: seq<Item<J>>, i: Item<J>)
    requires forall k | 0 <= k < |d| :: d[k].key != i.key
    ensures SetItem(d, i) == d + [i]
  {
    if d != [] {
      SetNew(d[1..], i);
      assert [d[0]] + (d[1..] + [i]) == d + [i];
    }
  }

  lemma SeparatorSkipped<J>(codec: Codec<J>, d: seq<Item<J>>, sep: string, more: string)
    requires sep == "\n" || sep == ""
    ensures ReadArguments(codec, d, sep + more) == ReadArguments(codec, d, more)
  {
    if sep == "" {
      assert sep + more == more;
    } else {
      assert (sep + more)[0] == '\n' && PARAM_OPEN[0] == '<';
      assert (sep + more)[1..] == more;
    }
  }

  lemma ParameterRead<J(!new)>(codec: Codec<J>, d: seq<Item<J>>, i: Item<J>, rest: string)
    requires Lawful(codec) && PrintableItem(codec, i)
    ensures ReadArguments(codec, d, Parameter(codec, i, rest)) == ReadArguments(codec, SetItem(d, i), rest)
  {
    ParameterWritten(codec, i, rest);
    assert Decode(codec, Flag(i.arg), TextOf(codec, i.arg)) == i.arg;
  }

  /** Printed parameters, read on top of a dictionary that has none of their keys, extend it in order. */
  lemma {:induction false} ArgumentsWritten<J(!new)>(codec: Codec<J>, d: seq<Item<J>>, items: seq<Item<J>>)
    requires Lawful(codec) && DistinctKeys(d + items)
    requires forall i | 0 <= i < |items| :: PrintableItem(codec, items[i])
    ensures ReadArguments(codec, d, Parameters(codec, items, "")) == d + items
    decreases |items|
  {
    if items == [] {
      assert d + items == d;
    } else {
      var i, more := items[0], Parameters(codec, items[1..], "");
      var sep := if |items| == 1 then "" else "\n";
      calc {
        ReadArguments(codec, d, Parameters(codec, items, ""));
        ReadArguments(codec, d, Parameter(codec, i, sep + more));
        { ParameterRead(codec, d, i, sep + more); }
        ReadArguments(codec, SetItem(d, i), sep + more);
        { NewKey(d, items); SetNew(d, i); }
        ReadArguments(codec, d + [i], sep + more);
        { SeparatorSkipped(codec, d + [i], sep, more); }
        ReadArguments(codec, d + [i], more);
        { MoveItem(d, items); ArgumentsWritten(codec, d + [i], items[1..]); }
        d + [i] + items[1..];
        { MoveItem(d, items); }
        d + items;
      }
    }
  }

  lemma MoveItem<T>(d: seq<T>, items: seq<T>)
    requires items != []
    ensures d + [items[0]] + items[1..] == d + items
  {
  }

  lemma NewKey<J>(d: seq<Item<J>>, items: seq<Item<J>>)
    requires items != [] && DistinctKeys(d + items)
    ensures forall k | 0 <= k < |d| :: d[k].key != items[0].key
  {
    assert forall k | 0 <= k < |d| :: (d + items)[k] == d[k] && (d + items)[|d|] == items[0];
  }

  lemma ParameterAppend<J>(codec: Codec<J>, i: Item<J>, x: string, y: string)
    ensures Parameter(codec, i, x + y) == Parameter(codec, i, x) + y
  {
    var text := TextOf(codec, i.arg);
    assert PARAM_CLOSE + (x + y) == PARAM_CLOSE + x + y;
    assert text + (PARAM_CLOSE + x + y) == text + (PARAM_CLOSE + x) + y;
    assert ">" + (text + (PARAM_CLOSE + x) + y) == ">" + (text + (PARAM_CLOSE + x)) + y;
    AttrAppend("string", Flag(i.arg), ">" + (text + (PARAM_CLOSE + x)), y);
    AttrAppend("name", i.key, Attr("string", Flag(i.arg), ">" + (text + (PARAM_CLOSE + x))), y);
    Assoc(PARAM_OPEN, Attr("name", i.key, Attr("string", Flag(i.arg), ">" + (text + (PARAM_CLOSE + x)))), y);
  }

  lemma AttrAppend(name: string, value: string, x: string, y: string)
    ensures Attr(name, value, x + y) == Attr(name, value, x) + y
  {
  }

  lemma {:induction false} ParametersAppend<J>(codec: Codec<J>, items: seq<Item<J>>, x: string, y: string)
    ensures Parameters(codec, items, x + y) == Parameters(codec, items, x) + y
  {
    if items != [] {
      var sep := if |items| == 1 then "" else "\n";
      ParametersAppend(codec, items[1..], x, y);
      Assoc(sep, Parameters(codec, items[1..], x), y);
      ParameterAppend(codec, items[0], sep + Parameters(codec, items[1..], x), y);
    }
  }

  lemma FreeAttr(name: string, value: string, rest: string)
    requires '<' !in name && Free(INVOKE_CLOSE, value) && Free(INVOKE_CLOSE, rest)
    ensures Free(INVOKE_CLOSE, Attr(name, value, rest))
  {
    TagFacts();
    FreeWithoutFirst(INVOKE_CLOSE, "\"");
    FreeConcat(INVOKE_CLOSE, "\"", rest);
    FreeConcat(INVOKE_CLOSE, value, "\"" + rest);
    FreeWithoutFirst(INVOKE_CLOSE, name + "=\"");
    FreeConcat(INVOKE_CLOSE, name + "=\"", value + ("\"" + rest));
    FreeWithoutFirst(INVOKE_CLOSE, " ");
    FreeConcat(INVOKE_CLOSE, " ", name + "=\"" + (value + ("\"" + rest)));
  }

  lemma FreeValue(text: string, rest: string)
    requires Free(INVOKE_CLOSE, text) && Free(INVOKE_CLOSE, rest)
    ensures Free(INVOKE_CLOSE, ">" + (text + (PARAM_CLOSE + rest)))
  {
    hide Free;
    TagFacts();
    FreeOtherTags();
    FreeConcat(INVOKE_CLOSE, PARAM_CLOSE, rest);
    FreeConcat(INVOKE_CLOSE, text, PARAM_CLOSE + rest);
    FreeWithoutFirst(INVOKE_CLOSE, ">");
    FreeConcat(INVOKE_CLOSE, ">", text + (PARAM_CLOSE + rest));
  }

  /** An invocation's closing tag is written neither in the key nor in the text. */
  predicate Contained<J>(codec: Codec<J>, i: Item<J>) {
    Free(INVOKE_CLOSE, i.key) && Free(INVOKE_CLOSE, TextOf(codec, i.arg))
  }

  lemma FreeParameter<J>(codec: Codec<J>, i: Item<J>, rest: string)
    requires Contained(codec, i) && Free(INVOKE_CLOSE, rest)
    ensures Free(INVOKE_CLOSE, Parameter(codec, i, rest))
  {
    hide Free, Attr;
    TagFacts();
    FreeOtherTags();
    var value := ">" + (TextOf(codec, i.arg) + (PARAM_CLOSE + rest));
    FreeValue(TextOf(codec, i.arg), rest);
    FreeWithoutFirst(INVOKE_CLOSE, Flag(i.arg));
    FreeAttr("string", Flag(i.arg), value);
    FreeAttr("name", i.key, Attr("string", Flag(i.arg), value));
    FreeConcat(INVOKE_CLOSE, PARAM_OPEN, Attr("name", i.key, Attr("string", Flag(i.arg), value)));
  }

  lemma FreeOtherTags()
    ensures Free(INVOKE_CLOSE, PARAM_OPEN) && Free(INVOKE_CLOSE, PARAM_CLOSE)
  {
    TagFacts();
    assert INVOKE_CLOSE[8] == 'i' && PARAM_CLOSE[0 + 8] == 'p' && INVOKE_CLOSE[1] == '/' && PARAM_OPEN[0 + 1] != '/';
    forall i: nat ensures !At(INVOKE_CLOSE, PARAM_OPEN, i) && !At(INVOKE_CLOSE, PARAM_CLOSE, i) {
      if 0 < i < |PARAM_OPEN| { assert PARAM_OPEN[i + 0] != '<'; }
      if 0 < i < |PARAM_CLOSE| { assert PARAM_CLOSE[i + 0] in PARAM_CLOSE[1..]; }
    }
  }

  lemma {:induction false} FreeParameters<J>(codec: Codec<J>, items: seq<Item<J>>, rest: string)
    requires forall i | 0 <= i < |items| :: Contained(codec, items[i])
    requires Free(INVOKE_CLOSE, rest)
    ensures Free(INVOKE_CLOSE, Parameters(codec, items, rest))
  {
    if items != [] {
      TagFacts();
      var sep := if |items| == 1 then "" else "\n";
      FreeParameters(codec, items[1..], rest);
      FreeWithoutFirst(INVOKE_CLOSE, sep);
      FreeConcat(INVOKE_CLOSE, sep, Parameters(codec, items[1..], rest));
      FreeParameter(codec, items[0], sep + Parameters(codec, items[1..], rest));
    }
  }

  lemma NoBlockWritten(rest: string)
    ensures Until(INVOKE_CLOSE, SkipSpace("\n" + ("\n" + (INVOKE_CLOSE + rest)))) == Some(Split("", rest))
  {
    TagFacts();
    var tail := INVOKE_CLOSE + rest;
    SkipSpaceRun("\n", tail);
    assert SkipSpace("\n" + ("\n" + tail)) == SkipSpace("\n" + tail) by {
      assert ("\n" + ("\n" + tail))[1..] == "\n" + tail;
    }
    FreeWithoutFirst(INVOKE_CLOSE, "");
    UntilWritten(INVOKE_CLOSE, "", rest);
    assert "" + tail == tail;
  }

  lemma FilledBlockWritten(p: string, rest: string, body: string)
    requires p != "" && !IsSpace(p[0]) && !IsSpace(p[|p| - 1]) && Free(INVOKE_CLOSE, p + "\n")
    requires body == p + "\n" + (INVOKE_CLOSE + rest)
    ensures Until(INVOKE_CLOSE, SkipSpace("\n" + body)) == Some(Split(p + "\n", rest)) && TrimEnd(p + "\n") == p
  {
    TagFacts();
    SkipSpaceRun("\n", body);
    UntilWritten(INVOKE_CLOSE, p + "\n", rest);
    TrimNewline(p);
  }

  /** The stripped block of a printed invocation is its parameter lines and nothing else. */
  lemma {:induction false} BlockWritten<J>(codec: Codec<J>, items: seq<Item<J>>, rest: string, body: string)
    requires forall i | 0 <= i < |items| :: Contained(codec, items[i])
    requires body == Parameters(codec, items, "\n" + (INVOKE_CLOSE + rest))
    ensures var split := Until(INVOKE_CLOSE, SkipSpace("\n" + body));
            split.Some? && TrimEnd(split.value.before) == Parameters(codec, items, "") && split.value.after == rest
  {
    hide Free, Until, SkipSpace, TrimEnd, Contained, Parameter;
    if items == [] {
      NoBlockWritten(rest);
    } else {
      var p := Parameters(codec, items, "");
      LinesTail(codec, items, INVOKE_CLOSE + rest);
      LinesFree(codec, items);
      ParametersShape(codec, items);
      FilledBlockWritten(p, rest, body);
    }
  }

  lemma LinesTail<J>(codec: Codec<J>, items: seq<Item<J>>, tail: string)
    ensures Parameters(codec, items, "\n" + tail) == Parameters(codec, items, "") + "\n" + tail
  {
    ParametersAppend(codec, items, "\n", tail);
    ParametersAppend(codec, items, "", "\n");
    assert "" + "\n" == "\n";
  }

  lemma LinesFree<J>(codec: Codec<J>, items: seq<Item<J>>)
    requires forall i | 0 <= i < |items| :: Contained(codec, items[i])
    ensures Free(INVOKE_CLOSE, Parameters(codec, items, "") + "\n")
  {
    TagFacts();
    FreeWithoutFirst(INVOKE_CLOSE, "\n");
    FreeParameters(codec, items, "\n");
    ParametersAppend(codec, items, "", "\n");
    assert "" + "\n" == "\n";
  }

  lemma {:induction false} ParametersShape<J>(codec: Codec<J>, items: seq<Item<J>>)
    requires items != []
    ensures var p := Parameters(codec, items, ""); p != "" && p[0] == '<' && p[|p| - 1] == '>'
  {
    if |items| == 1 {
      assert "" + "" == "";
      var i := items[0];
      ParameterAppend(codec, i, "", "");
      ParameterEnd(codec, i, "");
    } else {
      ParametersShape(codec, items[1..]);
      var more := Parameters(codec, items[1..], "");
      ParameterEnd(codec, items[0], "\n" + more);
      assert ("\n" + more)[|more|] == more[|more| - 1];
    }
  }

  lemma ParameterEnd<J>(codec: Codec<J>, i: Item<J>, rest: string)
    ensures var p := Parameter(codec, i, rest);
            p != "" && p[0] == '<' && p[|p| - 1] == if rest == "" then '>' else rest[|rest| - 1]
  {
    var end := PARAM_CLOSE + rest;
    assert end[|end| - 1] == if rest == "" then '>' else rest[|rest| - 1];
    LastOfAppend(TextOf(codec, i.arg), end);
    LastOfAppend(">", TextOf(codec, i.arg) + end);
    LastOfAttr("string", Flag(i.arg), ">" + (TextOf(codec, i.arg) + end));
    LastOfAttr("name", i.key, Attr("string", Flag(i.arg), ">" + (TextOf(codec, i.arg) + end)));
    LastOfAppend(PARAM_OPEN, Attr("name", i.key, Attr("string", Flag(i.arg), ">" + (TextOf(codec, i.arg) + end))));
  }

  lemma LastOfAppend(x: string, y: string)
    requires y != ""
    ensures (x + y)[|x + y| - 1] == y[|y| - 1]
  {
  }

  lemma LastOfAttr(name: string, value: string, rest: string)
    requires rest != ""
    ensures Attr(name, value, rest) != ""
    ensures Attr(name, value, rest)[|Attr(name, value, rest)| - 1] == rest[|rest| - 1]
  {
    LastOfAppend("\"", rest);
    LastOfAppend(value, "\"" + rest);
    LastOfAppend(name + "=\"", value + ("\"" + rest));
  }

  lemma AllContained<J>(codec: Codec<J>, c: Call<J>)
    requires Printable(codec, c)
    ensures forall i | 0 <= i < |c.arguments| :: Contained(codec, c.arguments[i])
  {
    hide Free;
    assert forall i | 0 <= i < |c.arguments| :: PrintableItem(codec, c.arguments[i]);
  }

  lemma InvocationWritten<J(!new)>(codec: Codec<J>, c: Call<J>, rest: string)
    requires Lawful(codec) && Printable(codec, c)
    ensures MatchInvoke(Invocation(codec, c, rest))
         == Some(InvokeMatch(c.name, Parameters(codec, c.arguments, ""), rest))
    ensures ReadCalls(codec, Invocation(codec, c, rest)) == [c] + ReadCalls(codec, rest)
  {
    hide PrintableItem, Contained, Parameters, Attr, MatchAttr;
    var v := "\n" + Parameters(codec, c.arguments, "\n" + (INVOKE_CLOSE + rest));
    ExpectWritten(INVOKE_OPEN, Attr("name", c.name, ">" + v));
    AttrWritten("name", c.name, ">" + v);
    ExpectWritten(">", v);
    AllContained(codec, c);
    BlockWritten(codec, c.arguments, rest, v[1..]);
    assert [] + c.arguments == c.arguments;
    ArgumentsWritten(codec, [], c.arguments);
  }

  lemma LineSkipped<J>(codec: Codec<J>, sep: string, more: string)
    requires sep == "\n" || sep == ""
    ensures ReadCalls(codec, sep + more) == ReadCalls(codec, more)
  {
    if sep == "" {
      assert sep + more == more;
    } else {
      assert (sep + more)[0] == '\n' && INVOKE_OPEN[0] == '<';
      assert (sep + more)[1..] == more;
    }
  }

  lemma {:induction false} InvocationsWritten<J(!new)>(codec: Codec<J>, calls: seq<Call<J>>, rest: string)
    requires Lawful(codec) && forall c | 0 <= c < |calls| :: Printable(codec, calls[c])
    ensures ReadCalls(codec, Invocations(codec, calls, rest)) == calls + ReadCalls(codec, rest)
  {
    hide ReadCalls, Invocation;
    if calls != [] {
      var c, sep, more := calls[0], if |calls| == 1 then "" else "\n", Invocations(codec, calls[1..], rest);
      calc {
        ReadCalls(codec, Invocations(codec, calls, rest));
        ReadCalls(codec, Invocation(codec, c, sep + more));
        { InvocationWritten(codec, c, sep + more); }
        [c] + ReadCalls(codec, sep + more);
        { LineSkipped(codec, sep, more); }
        [c] + ReadCalls(codec, more);
        { InvocationsWritten(codec, calls[1..], rest); }
        [c] + (calls[1..] + ReadCalls(codec, rest));
        { MoveItem([], calls); }
        calls + ReadCalls(codec, rest);
      }
    }
  }

  /** Text with no opening tag ahead of `more` contributes no call. */
  lemma {:induction false} PlainSkipped<J>(codec: Codec<J>, plain: string, more: string)
    requires '<' !in plain
    ensures ReadCalls(codec, plain + more) == ReadCalls(codec, more)
  {
    if plain == "" {
      assert plain + more == more;
    } else {
      assert plain[0] in plain && (plain + more)[0] == plain[0] && INVOKE_OPEN[0] == '<';
      assert (plain + more)[1..] == plain[1..] + more;
      PlainSkipped(codec, plain[1..], more);
    }
  }

  /** An element that is not an invocation is passed over. */
  lemma ElementSkipped<J>(codec: Codec<J>, tag: string, more: string)
    requires |tag| > 8 && '<' !in tag[1..] && (tag[1] != INVOKE_OPEN[1] || tag[7] != INVOKE_OPEN[7])
    ensures ReadCalls(codec, tag + more) == ReadCalls(codec, more)
  {
    assert (tag + more)[1] == tag[1] && (tag + more)[7] == tag[7] && |INVOKE_OPEN| > 7;
    assert (tag + more)[1..] == tag[1..] + more;
    PlainSkipped(codec, tag[1..], more);
  }

  /** The parser finds nothing around the invocations. */
  lemma {:induction false} PrintedReads<J>(codec: Codec<J>, calls: seq<Call<J>>)
    ensures ReadCalls(codec, Printed(codec, calls)) == ReadCalls(codec, Invocations(codec, calls, "\n" + CALLS_CLOSE))
    ensures ReadCalls(codec, "\n" + CALLS_CLOSE) == []
  {
    ElementSkipped(codec, CALLS_OPEN, "\n" + Invocations(codec, calls, "\n" + CALLS_CLOSE));
    LineSkipped(codec, "\n", Invocations(codec, calls, "\n" + CALLS_CLOSE));
    LineSkipped(codec, "\n", CALLS_CLOSE);
    ElementSkipped(codec, CALLS_CLOSE, "");
    assert CALLS_CLOSE + "" == CALLS_CLOSE;
  }

  // ---- Whatever the parser returns is clean ----

  /** What the parser can return: a JSON-typed value is only known by its decoded form. */
  predicate CleanItem<J>(i: Item<J>) {
    && Quotable(i.key) && Free(INVOKE_CLOSE, i.key)
    && (i.arg.Text? ==> Free(INVOKE_CLOSE, i.arg.text) && Free(PARAM_CLOSE, i.arg.text))
  }

  predicate CleanItems<J>(items: seq<Item<J>>) {
    DistinctKeys(items) && forall i | 0 <= i < |items| :: CleanItem(items[i])
  }

  lemma {:induction false} SetClean<J>(d: seq<Item<J>>, i: Item<J>)
    requires CleanItems(d) && CleanItem(i)
    ensures CleanItems(SetItem(d, i))
    ensures forall k | 0 <= k < |SetItem(d, i)| ::
      SetItem(d, i)[k].key == i.key || exists j :: 0 <= j < |d| && d[j].key == SetItem(d, i)[k].key
  {
    if d != [] && d[0].key != i.key {
      SetClean(d[1..], i);
    }
  }

  lemma AttrFree(free: string, name: string, t: string)
    requires Free(free, t) && MatchAttr(name, t).Some?
    ensures Free(free, MatchAttr(name, t).value.value) && Free(free, MatchAttr(name, t).value.rest)
  {
    var u := SkipSpace(t);
    SkipSpaceSuffix(t);
    FreeSuffix(free, t, u);
    var v := Expect(name + "=\"", u).value;
    FreeSuffix(free, u, v);
    UntilFree(free, "\"", v);
  }

  lemma MatchFree(free: string, t: string)
    requires Free(free, t) && MatchParameter(t).Some?
    ensures var m := MatchParameter(t).value; Free(free, m.key) && Free(free, m.text) && Free(free, m.rest)
  {
    var u := Expect(PARAM_OPEN, t).value;
    FreeSuffix(free, t, u);
    AttrFree(free, "name", u);
    var a := MatchAttr("name", u).value;
    AttrFree(free, "string", a.rest);
    var f := MatchAttr("string", a.rest).value;
    var v := Expect(">", f.rest).value;
    FreeSuffix(free, f.rest, v);
    UntilFree(free, PARAM_CLOSE, v);
  }

  lemma {:induction false} ArgumentsClean<J>(codec: Codec<J>, d: seq<Item<J>>, t: string)
    requires CleanItems(d) && Free(INVOKE_CLOSE, t)
    ensures CleanItems(ReadArguments(codec, d, t))
    decreases |t|
  {
    if t != "" {
      match MatchParameter(t)
      case Some(m) =>
        MatchFree(INVOKE_CLOSE, t);
        var i := Item(m.key, Decode(codec, m.flag, m.text));
        SetClean(d, i);
        ArgumentsClean(codec, SetItem(d, i), m.rest);
      case None =>
        FreeSuffix(INVOKE_CLOSE, t, t[1..]);
        ArgumentsClean(codec, d, t[1..]);
    }
  }

  /** Every call the parser returns, on any text, has a quotable name and clean, distinct arguments. */
  lemma {:induction false} CallsClean<J>(codec: Codec<J>, t: string)
    ensures forall c | 0 <= c < |ReadCalls(codec, t)| ::
              Quotable(ReadCalls(codec, t)[c].name) && CleanItems(ReadCalls(codec, t)[c].arguments)
    decreases |t|
  {
    if t != "" {
      match MatchInvoke(t)
      case Some(m) =>
        ArgumentsClean(codec, [], m.block);
        CallsClean(codec, m.rest);
      case None =>
        CallsClean(codec, t[1..]);
    }
  }

  // ---- Main results ----

  /** Printable calls survive the trip in order, with strings and JSON values kept apart. */
  lemma PrintThenParse<J(!new)>(codec: Codec<J>, calls: seq<Call<J>>)
    requires Lawful(codec) && calls != []
    requires forall c | 0 <= c < |calls| :: Printable(codec, calls[c])
    ensures ToolCalls(codec, Printed(codec, calls)) == Functions(calls)
  {
    hide ReadCalls, Printed;
    PrintedReads(codec, calls);
    InvocationsWritten(codec, calls, "\n" + CALLS_CLOSE);
    assert calls + [] == calls;
  }

  /** An empty list prints to text the parser does not recognise as DSML. */
  lemma EmptyFallsBack<J>(codec: Codec<J>)
    ensures ToolCalls(codec, Printed<J>(codec, [])) == ReactFallback
  {
    PrintedReads<J>(codec, []);
  }
}
