/** The DSML template's own loops, each proved to compute the printed form or the parsed calls. */
module DsmlTemplate {
  import opened Scanner
  import opened Dsml
  import opened DsmlRoundTrip

  lemma {:induction false} JoinParameters<J>(codec: Codec<J>, items: seq<Item<J>>, lines: seq<string>)
    requires |lines| == |items|
    requires forall k | 0 <= k < |items| :: lines[k] == Parameter(codec, items[k], "")
    ensures Join(lines, "\n") == Parameters(codec, items, "")
  {
    hide Parameter;
    if |items| == 1 {
      assert "" + "" == "";
    } else if |items| > 1 {
      var more := Parameters(codec, items[1..], "");
      JoinParameters(codec, items[1..], lines[1..]);
      assert "" + ("\n" + more) == "\n" + more;
      ParameterAppend(codec, items[0], "", "\n" + more);
      Assoc(lines[0], "\n", more);
    }
  }

  lemma {:induction false} JoinInvocations<J>(codec: Codec<J>, calls: seq<Call<J>>, lines: seq<string>, rest: string)
    requires |lines| == |calls|
    requires forall k | 0 <= k < |calls| :: lines[k] == Invocation(codec, calls[k], "")
    ensures Join(lines, "\n") + rest == Invocations(codec, calls, rest)
  {
    hide Invocation;
    if calls == [] {
      assert "" + rest == rest;
    } else if |calls| == 1 {
      assert "" + rest == rest;
      InvocationAppend(codec, calls[0], rest);
    } else {
      var more := Invocations(codec, calls[1..], rest);
      JoinInvocations(codec, calls[1..], lines[1..], rest);
      InvocationAppend(codec, calls[0], "\n" + more);
      Assoc(lines[0] + "\n", Join(lines[1..], "\n"), rest);
      Assoc(lines[0], "\n", more);
    }
  }

  lemma InvocationAppend<J>(codec: Codec<J>, c: Call<J>, rest: string)
    ensures Invocation(codec, c, rest) == Invocation(codec, c, "") + rest
  {
    hide Parameters;
    var p := Parameters(codec, c.arguments, "\n" + (INVOKE_CLOSE + ""));
    assert "\n" + (INVOKE_CLOSE + rest) == "\n" + (INVOKE_CLOSE + "") + rest;
    ParametersAppend(codec, c.arguments, "\n" + (INVOKE_CLOSE + ""), rest);
    assert ">" + ("\n" + (p + rest)) == ">" + ("\n" + p) + rest;
    AttrAppend("name", c.name, ">" + ("\n" + p), rest);
    Assoc(INVOKE_OPEN, Attr("name", c.name, ">" + ("\n" + p)), rest);
  }

  /** The value, its closing quote, and the tag's end. */
  lemma LineTail(flag: string, t: string)
    ensures "\" string=\"" + (flag + ("\">" + t + PARAM_CLOSE))
      == "\"" + Attr("string", flag, ">" + (t + (PARAM_CLOSE + "")))
  {
    assert "\">" + t + PARAM_CLOSE == "\"" + (">" + (t + (PARAM_CLOSE + "")));
  }

  lemma LineHead(key: string, mid: string, rest: string)
    requires mid == "\"" + rest
    ensures " name=\"" + (key + mid) == Attr("name", key, rest)
  {
  }

  lemma Flatten(a: string, b: string, c: string, d: string, e: string, f: string, g: string, h: string)
    ensures a + b + c + d + e + f + g + h == a + (b + (c + (d + (e + (f + g + h)))))
  {
  }

  lemma LineForms<J>(codec: Codec<J>, i: Item<J>)
    ensures PARAM_OPEN + " name=\"" + i.key + "\" string=\"" + Flag(i.arg) + "\">" + TextOf(codec, i.arg) + PARAM_CLOSE
         == Parameter(codec, i, "")
  {
    hide Attr;
    var t := TextOf(codec, i.arg);
    var mid := "\" string=\"" + (Flag(i.arg) + ("\">" + t + PARAM_CLOSE));
    LineTail(Flag(i.arg), t);
    LineHead(i.key, mid, Attr("string", Flag(i.arg), ">" + (t + (PARAM_CLOSE + ""))));
    Flatten(PARAM_OPEN, " name=\"", i.key, "\" string=\"", Flag(i.arg), "\">", t, PARAM_CLOSE);
  }

  method EncodeArguments<J>(codec: Codec<J>, arguments: seq<Item<J>>) returns (r: string)
    ensures r == Parameters(codec, arguments, "")
  {
    hide Parameter, Parameters;
    var lines := [];
    for i := 0 to |arguments|
      invariant |lines| == i
      invariant forall k | 0 <= k < i :: lines[k] == Parameter(codec, arguments[k], "")
    {
      var isStr := if arguments[i].arg.Text? then "true" else "false";
      var val := if arguments[i].arg.Text? then arguments[i].arg.text else codec.dumps(arguments[i].arg.value);
      LineForms(codec, arguments[i]);
      lines := lines +
        [PARAM_OPEN + " name=\"" + arguments[i].key + "\" string=\"" + isStr + "\">" + val + PARAM_CLOSE];
    }
    JoinParameters(codec, arguments, lines);
    r := Join(lines, "\n");
  }

  lemma InvocationForm<J>(codec: Codec<J>, c: Call<J>, args: string)
    requires args == Parameters(codec, c.arguments, "")
    ensures INVOKE_OPEN + " name=\"" + c.name + "\">\n" + args + "\n" + INVOKE_CLOSE == Invocation(codec, c, "")
  {
    hide Parameters;
    LinesTail(codec, c.arguments, INVOKE_CLOSE + "");
    var p := args + "\n" + (INVOKE_CLOSE + "");
    var tail := "\">\n" + args + "\n" + INVOKE_CLOSE;
    assert tail == "\"" + (">" + ("\n" + p));
    assert " name=\"" + (c.name + tail) == Attr("name", c.name, ">" + ("\n" + p));
    assert INVOKE_OPEN + " name=\"" + c.name + "\">\n" + args + "\n" + INVOKE_CLOSE
        == INVOKE_OPEN + (" name=\"" + (c.name + tail));
  }

  method FormatToolCalls<J>(codec: Codec<J>, calls: seq<Call<J>>) returns (r: string)
    ensures r == Printed(codec, calls)
  {
    hide Invocation, Invocations, Parameters;
    var invocations := [];
    for i := 0 to |calls|
      invariant |invocations| == i
      invariant forall k | 0 <= k < i :: invocations[k] == Invocation(codec, calls[k], "")
    {
      var dsmlArgs := EncodeArguments(codec, calls[i].arguments);
      InvocationForm(codec, calls[i], dsmlArgs);
      invocations := invocations +
        [INVOKE_OPEN + " name=\"" + calls[i].name + "\">\n" + dsmlArgs + "\n" + INVOKE_CLOSE];
    }
    var body := Join(invocations, "\n");
    JoinInvocations(codec, calls, invocations, "\n" + CALLS_CLOSE);
    r := CALLS_OPEN + "\n" + body + "\n" + CALLS_CLOSE;
    assert r == CALLS_OPEN + ("\n" + (body + ("\n" + CALLS_CLOSE)));
  }

  method GetToolcall<J>(codec: Codec<J>, response: string) returns (r: Parsed<J>)
    ensures r == ToolCalls(codec, response)
  {
    var functions: seq<Call<J>> := [];
    var rest := response;
    while rest != ""
      invariant ReadCalls(codec, response) == functions + ReadCalls(codec, rest)
      decreases |rest|
    {
      match MatchInvoke(rest)
      case None =>
        rest := rest[1..];
      case Some(m) =>
        var arguments: seq<Item<J>> := [];
        var block := m.block;
        while block != ""
          invariant ReadArguments(codec, [], m.block) == ReadArguments(codec, arguments, block)
          decreases |block|
        {
          match MatchParameter(block)
          case None =>
            block := block[1..];
          case Some(p) =>
            var value := Text(p.text);
            if p.flag == "false" {
              match codec.loads(p.text)
              case Some(v) => value := Data(v);
              case None =>
            }
            arguments := SetItem(arguments, Item(p.key, value));
            block := p.rest;
        }
        functions := functions + [Call(m.name, arguments)];
        rest := m.rest;
    }
    r := if |functions| == 0 then ReactFallback else Functions(functions);
  }
}
