/** What the parser makes of hand-written text: any whitespace between the parts, each mark read its own way, the
    last of several parameters of one name kept. */
module DsmlReading {
  import opened Wrappers
  import opened Scanner
  import opened Dsml
  import opened DsmlRoundTrip

  predicate Spaces(ws: string) {
    forall i | 0 <= i < |ws| :: IsSpace(ws[i])
  }

  /** An attribute after some whitespace, as a model may write it. */
  function Spaced(ws: string, name: string, value: string, rest: string): string {
    ws + (name + "=\"" + (value + ("\"" + rest)))
  }

  lemma SpacedRead(ws: string, name: string, value: string, rest: string)
    requires ws != "" && Spaces(ws) && name != "" && !IsSpace(name[0]) && Quotable(value)
    ensures MatchAttr(name, Spaced(ws, name, value, rest)) == Some(AttrMatch(value, rest))
  {
    var v := value + ("\"" + rest);
    var u := name + "=\"" + v;
    assert forall c | c in ws :: IsSpace(c);
    SkipSpaceRun(ws, u);
    ExpectWritten(name + "=\"", v);
    FreeChar('"', value);
    UntilWritten("\"", value, rest);
  }

  /** A parameter element followed by `rest`. */
  function Element(ws: string, key: string, ws': string, mark: string, text: string, rest: string): string {
    PARAM_OPEN + Spaced(ws, "name", key, Spaced(ws', "string", mark, ">" + (text + (PARAM_CLOSE + rest))))
  }

  lemma ElementMatched(ws: string, key: string, ws': string, mark: string, text: string, rest: string)
    requires ws != "" && Spaces(ws) && ws' != "" && Spaces(ws') && Quotable(key) && (mark == "true" || mark == "false")
    requires Free(PARAM_CLOSE, text)
    ensures MatchParameter(Element(ws, key, ws', mark, text, rest)) == Some(ParamMatch(key, mark, text, rest))
  {
    hide MatchAttr, Spaced;
    var v := text + (PARAM_CLOSE + rest);
    var a := Spaced(ws', "string", mark, ">" + v);
    ExpectWritten(PARAM_OPEN, Spaced(ws, "name", key, a));
    SpacedRead(ws, "name", key, a);
    SpacedRead(ws', "string", mark, ">" + v);
    ExpectWritten(">", v);
    TagFacts();
    UntilWritten(PARAM_CLOSE, text, rest);
  }

  /** The dictionary `d` after `key` was assigned `arg`: a known key keeps its place, a new one goes last. */
  ghost predicate Assigned<J>(d: seq<Item<J>>, d': seq<Item<J>>, key: string, arg: Argument<J>) {
    || (exists i :: 0 <= i < |d| && d[i].key == key && (forall j | 0 <= j < i :: d[j].key != key)
          && d' == d[i := Item(key, arg)])
    || ((forall j | 0 <= j < |d| :: d[j].key != key) && d' == d + [Item(key, arg)])
  }

  lemma {:induction false} SetAssigns<J>(d: seq<Item<J>>, i: Item<J>)
    ensures Assigned(d, SetItem(d, i), i.key, i.arg)
  {
    if d != [] && d[0].key != i.key {
      SetAssigns(d[1..], i);
      var rest := SetItem(d[1..], i);
      if k :| 0 <= k < |d[1..]| && d[1..][k].key == i.key && (forall j | 0 <= j < k :: d[1..][j].key != i.key)
              && rest == d[1..][k := Item(i.key, i.arg)] {
        assert forall j | 0 <= j < k + 1 :: j == 0 || d[j] == d[1..][j - 1];
        assert SetItem(d, i) == d[k + 1 := Item(i.key, i.arg)];
      } else {
        assert forall j | 0 <= j < |d| :: j == 0 || d[j] == d[1..][j - 1];
        assert SetItem(d, i) == d + [Item(i.key, i.arg)];
      }
    } else if d != [] {
      assert SetItem(d, i) == d[0 := Item(i.key, i.arg)];
    }
  }

  /** The argument a parameter stands for: its text as it is, or, marked as no string, its JSON value if it has one. */
  ghost predicate Means<J>(codec: Codec<J>, mark: string, text: string, arg: Argument<J>) {
    && (mark == "true" ==> arg == Text(text))
    && (mark == "false" && codec.loads(text).Some? ==> arg == Data(codec.loads(text).value))
    && (mark == "false" && codec.loads(text) == None ==> arg == Text(text))
  }

  /** One parameter, whatever stands behind it, assigns its key what its mark and text mean. */
  lemma {:induction false} ElementRead<J(!new)>(
      codec: Codec<J>, d: seq<Item<J>>, ws: string, key: string, ws': string, mark: string, text: string, rest: string)
    returns (arg: Argument<J>, d': seq<Item<J>>)
    requires ws != "" && Spaces(ws) && ws' != "" && Spaces(ws') && Quotable(key) && (mark == "true" || mark == "false")
    requires Free(PARAM_CLOSE, text)
    ensures Means(codec, mark, text, arg) && Assigned(d, d', key, arg)
    ensures ReadArguments(codec, d, Element(ws, key, ws', mark, text, rest)) == ReadArguments(codec, d', rest)
  {
    hide MatchParameter, SetItem, Assigned, Free;
    ElementMatched(ws, key, ws', mark, text, rest);
    arg := Decode(codec, mark, text);
    d' := SetItem(d, Item(key, arg));
    SetAssigns(d, Item(key, arg));
  }

  /** An invocation element followed by `rest`. */
  function Invoked(ws: string, name: string, before: string, block: string, after: string, rest: string): string {
    INVOKE_OPEN + Spaced(ws, "name", name, ">" + (before + (block + (after + (INVOKE_CLOSE + rest)))))
  }

  lemma {:induction false} TrimSpaces(t: string, ws: string)
    requires Spaces(ws) && (t == "" || !IsSpace(t[|t| - 1]))
    ensures TrimEnd(t + ws) == t
  {
    if ws == "" {
      assert t + ws == t;
    } else {
      assert (t + ws)[..|t + ws| - 1] == t + ws[..|ws| - 1];
      TrimSpaces(t, ws[..|ws| - 1]);
    }
  }

  /** Spaces in front of a block are skipped, whether or not it is empty. */
  lemma SkipBefore(before: string, block: string, after: string, tail: string)
    requires Spaces(before) && Spaces(after) && (block == "" || !IsSpace(block[0]))
    requires tail != "" && !IsSpace(tail[0])
    ensures SkipSpace(before + (block + (after + tail))) == if block == "" then tail else block + (after + tail)
  {
    assert forall c | c in before :: IsSpace(c);
    assert forall c | c in after :: IsSpace(c);
    if block == "" {
      assert block + (after + tail) == after + tail;
      assert forall c | c in before + after :: IsSpace(c);
      SkipSpaceRun(before + after, tail);
      Assoc(before, after, tail);
    } else {
      SkipSpaceRun(before, block + (after + tail));
    }
  }

  /** One invocation, whatever stands behind it, is a call of its name with the arguments of its block, the spaces
      around the block aside. */
  lemma {:induction false} InvokedRead<J>(
      codec: Codec<J>, ws: string, name: string, before: string, block: string, after: string, rest: string)
    requires ws != "" && Spaces(ws) && Spaces(before) && Spaces(after) && Quotable(name)
    requires Free(INVOKE_CLOSE, block) && (block == "" || (!IsSpace(block[0]) && !IsSpace(block[|block| - 1])))
    ensures ReadCalls(codec, Invoked(ws, name, before, block, after, rest))
         == [Call(name, ReadArguments(codec, [], block))] + ReadCalls(codec, rest)
  {
    hide MatchAttr, Spaced, ReadArguments, Free, TrimEnd, SkipSpace, Until;
    TagFacts();
    var tail := INVOKE_CLOSE + rest;
    var v := before + (block + (after + tail));
    ExpectWritten(INVOKE_OPEN, Spaced(ws, "name", name, ">" + v));
    SpacedRead(ws, "name", name, ">" + v);
    ExpectWritten(">", v);
    BlockRead(before, block, after, rest);
    assert Invoked(ws, name, before, block, after, rest)[0] == '<';
  }

  lemma BlockRead(before: string, block: string, after: string, rest: string)
    requires Spaces(before) && Spaces(after)
    requires Free(INVOKE_CLOSE, block) && (block == "" || (!IsSpace(block[0]) && !IsSpace(block[|block| - 1])))
    ensures var split := Until(INVOKE_CLOSE, SkipSpace(before + (block + (after + (INVOKE_CLOSE + rest)))));
      split.Some? && TrimEnd(split.value.before) == block && split.value.after == rest
  {
    hide Free, Until, TrimEnd, SkipSpace;
    TagFacts();
    var tail := INVOKE_CLOSE + rest;
    SkipBefore(before, block, after, tail);
    if block == "" {
      assert "" + tail == tail;
      FreeWithoutFirst(INVOKE_CLOSE, "");
      UntilWritten(INVOKE_CLOSE, "", rest);
      assert Spaces("") && "" + "" == "";
      TrimSpaces("", "");
    } else {
      FilledRead(block, after, rest);
      TrimSpaces(block, after);
    }
  }

  lemma FilledRead(block: string, after: string, rest: string)
    requires Spaces(after) && Free(INVOKE_CLOSE, block)
    ensures Until(INVOKE_CLOSE, block + (after + (INVOKE_CLOSE + rest))) == Some(Split(block + after, rest))
  {
    hide Free, Until, Spaces;
    TagFacts();
    FreeSpaces(after);
    SpacesOnly(block, after);
    FreeConcat(INVOKE_CLOSE, block, after);
    Assoc(block, after, INVOKE_CLOSE + rest);
    UntilWritten(INVOKE_CLOSE, block + after, rest);
  }

  lemma FreeSpaces(ws: string)
    requires Spaces(ws)
    ensures Free(INVOKE_CLOSE, ws)
  {
    TagFacts();
    assert !IsSpace('<');
    FreeWithoutFirst(INVOKE_CLOSE, ws);
  }

  /** No closing tag straddles the end of a block and the spaces behind it. */
  lemma SpacesOnly(block: string, ws: string)
    requires Spaces(ws)
    ensures ws == "" || ws[0] !in INVOKE_CLOSE[1..]
  {
    if ws != "" {
      assert forall c | c in INVOKE_CLOSE :: !IsSpace(c);
      assert IsSpace(ws[0]);
    }
  }

  lemma ElementEnds(ws: string, key: string, ws': string, mark: string, text: string)
    ensures var t := Element(ws, key, ws', mark, text, "");
      t != "" && !IsSpace(t[0]) && !IsSpace(t[|t| - 1])
  {
    var tail := PARAM_CLOSE + "";
    LastOfAppend(text, tail);
    LastOfAppend(">", text + tail);
    LastOfSpaced(ws', "string", mark, ">" + (text + tail));
    LastOfSpaced(ws, "name", key, Spaced(ws', "string", mark, ">" + (text + tail)));
    LastOfAppend(PARAM_OPEN, Spaced(ws, "name", key, Spaced(ws', "string", mark, ">" + (text + tail))));
  }

  lemma LastOfSpaced(ws: string, name: string, value: string, rest: string)
    requires rest != ""
    ensures var t := Spaced(ws, name, value, rest); t != "" && t[|t| - 1] == rest[|rest| - 1]
  {
    LastOfAppend("\"", rest);
    LastOfAppend(value, "\"" + rest);
    LastOfAppend(name + "=\"", value + ("\"" + rest));
    LastOfAppend(ws, name + "=\"" + (value + ("\"" + rest)));
  }

  /** A response with one parameter in one invocation is one call with what the parameter means. */
  lemma {:induction false} SingleArgument<J(!new)>(
      codec: Codec<J>, w1: string, name: string, before: string, after: string,
      w2: string, key: string, w3: string, mark: string, text: string)
    returns (arg: Argument<J>)
    requires w1 != "" && Spaces(w1) && w2 != "" && Spaces(w2) && w3 != "" && Spaces(w3) &&
      Spaces(before) && Spaces(after)
    requires Quotable(name) && Quotable(key) && (mark == "true" || mark == "false") && Free(PARAM_CLOSE, text)
    requires Free(INVOKE_CLOSE, Element(w2, key, w3, mark, text, ""))
    ensures Means(codec, mark, text, arg)
    ensures ToolCalls(codec, Invoked(w1, name, before, Element(w2, key, w3, mark, text, ""), after, ""))
         == Functions([Call(name, [Item(key, arg)])])
  {
    hide Invoked, Element, Free, Means, ReadCalls;
    var block, d := Element(w2, key, w3, mark, text, ""), [];
    ElementEnds(w2, key, w3, mark, text);
    InvokedRead(codec, w1, name, before, block, after, "");
    arg, d := ElementRead(codec, [], w2, key, w3, mark, text, "");
    NoText(codec, d);
    assert [] + [Item(key, arg)] == [Item(key, arg)];
    assert [Call(name, d)] + [] == [Call(name, d)];
  }

  lemma NoText<J>(codec: Codec<J>, d: seq<Item<J>>)
    ensures ReadArguments(codec, d, "") == d && ReadCalls(codec, "") == []
  {
  }
}
