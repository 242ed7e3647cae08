/** Why only printable calls survive the trip, JSON texts included: what the parser reads where a text holds a
    closing tag. */
module DsmlNecessity {
  import opened Wrappers
  import opened Scanner
  import opened Dsml
  import opened DsmlRoundTrip

  const TRUE_MARK := "string=\"true\""
  const FALSE_MARK := "string=\"false\""

  /** No string mark is written inside. */
  predicate Unmarked(t: string) {
    Free(TRUE_MARK, t) && Free(FALSE_MARK, t)
  }

  /** What JSON adds to the codec's law: a text cut short is no text of the same value, and since a quote that ends a
      JSON string is followed by punctuation, no string mark can be spelled inside. */
  ghost predicate Delimited<J(!new)>(codec: Codec<J>) {
    forall v ::
      && Unmarked(codec.dumps(v))
      && forall n | 0 <= n < |codec.dumps(v)| :: codec.loads(codec.dumps(v)[..n]) != Some(v)
  }

  predicate IsFlag(f: string) {
    f == "true" || f == "false"
  }

  /** A parameter's opening tag followed by `x`. */
  function Opening(key: string, flag: string, x: string): string {
    PARAM_OPEN + Attr("name", key, Attr("string", flag, ">" + x))
  }

  lemma OpeningMatch(key: string, flag: string, x: string)
    requires Quotable(key) && IsFlag(flag)
    ensures MatchParameter(Opening(key, flag, x))
      == match Until(PARAM_CLOSE, x)
         case None => None
         case Some(s) => Some(ParamMatch(key, flag, s.before, s.after))
  {
    ExpectWritten(PARAM_OPEN, Attr("name", key, Attr("string", flag, ">" + x)));
    AttrWritten("name", key, Attr("string", flag, ">" + x));
    AttrWritten("string", flag, ">" + x);
    ExpectWritten(">", x);
  }

  // ---- Attributes in the wrong place ----

  /** A tag without the character `stop` is expected inside `b` when `stop` follows. */
  lemma ExpectInside(p: string, b: string, z: string)
    requires Expect(p, b + z).Some? && (z == "" || z[0] !in p)
    ensures |p| <= |b| && b[..|p|] == p && Expect(p, b + z) == Some(b[|p|..] + z)
  {
    var t := b + z;
    assert t[..|p|] == p && forall k | 0 <= k < |p| :: t[k] == p[k];
    assert |b| < |t| ==> t[|b|] == z[0];
    assert t[|p|..] == b[|p|..] + z;
  }

  lemma {:induction false} SkipInside(b: string, z: string)
    requires z == "" || !IsSpace(z[0])
    ensures exists k: nat :: k <= |b| && SkipSpace(b + z) == b[k..] + z
  {
    if b != "" && IsSpace(b[0]) {
      assert (b + z)[1..] == b[1..] + z;
      SkipInside(b[1..], z);
      var k: nat :| k <= |b[1..]| && SkipSpace(b[1..] + z) == b[1..][k..] + z;
      assert b[1..][k..] == b[k + 1..];
    } else {
      if b == "" { assert b + z == z; }
      assert b[0..] == b;
    }
  }

  /** An attribute matched at the start of `b + z`, where `z` begins with a tag, has its name and quote in `b`. */
  lemma AttrInside(name: string, b: string, z: string) returns (k: nat)
    requires MatchAttr(name, b + z).Some? && '<' !in name && (z == "" || z[0] == '<')
    ensures |name| + 2 <= k <= |b| && b[k - |name| - 2..k] == name + "=\""
    ensures MatchAttr(name, b + z)
      == match Until("\"", b[k..] + z)
         case None => None
         case Some(s) => if s.before == "" then None else Some(AttrMatch(s.before, s.after))
  {
    hide Until, SkipSpace;
    SkipInside(b, z);
    var i: nat :| i <= |b| && SkipSpace(b + z) == b[i..] + z;
    var p := name + "=\"";
    assert z != "" ==> z[0] !in p;
    ExpectInside(p, b[i..], z);
    k := i + |p|;
    assert b[i..][|p|..] == b[k..] && b[i..][..|p|] == b[i..k];
  }

  lemma UntilInside(tag: string, b: string, z: string) returns (k: nat)
    requires |tag| == 1 && tag[0] in b
    ensures k < |b| && b[k..k + 1] == tag && Until(tag, b + z) == Some(Split(b[..k], b[k + 1..] + z))
  {
    k := FirstChar(tag[0], b);
    FreeChar(tag[0], b[..k]);
    assert tag == [tag[0]];
    assert b == b[..k] + (tag + b[k + 1..]);
    Regroup(b[..k], tag, b[k + 1..], z);
    UntilWritten(tag, b[..k], b[k + 1..] + z);
  }

  lemma {:induction false} FirstChar(c: char, b: string) returns (k: nat)
    requires c in b
    ensures k < |b| && b[k] == c && c !in b[..k]
  {
    if b[0] == c {
      k := 0;
    } else {
      k := FirstChar(c, b[1..]);
      assert b[..k + 1] == [b[0]] + b[1..][..k];
      k := k + 1;
    }
  }

  lemma UntilBeyond(tag: string, b: string, z: string)
    requires |tag| == 1 && tag[0] !in b
    ensures Until(tag, b + z)
      == match Until(tag, z) case None => None case Some(s) => Some(Split(b + s.before, s.after))
  {
    var t := b + z;
    forall i: nat ensures At(tag, t, i) <==> i >= |b| && At(tag, z, i - |b|) {
      if i < |b| {
        assert t[i + 0] == b[i];
      } else if i < |t| {
        assert t[i + 0] == z[i - |b| + 0];
      }
    }
    if Find(tag, z).Some? {
      var k := Find(tag, z).value;
      assert At(tag, t, |b| + k);
      assert Find(tag, t) == Some(|b| + k);
      assert t[..|b| + k] == b + z[..k] && t[|b| + k + 1..] == z[k + 1..];
    }
  }

  // ---- No parameter begins inside a text ----

  /** What can follow a closing tag: nothing quoted, or the next parameter. */
  ghost predicate Follows(z: string) {
    '"' !in z || exists key, flag, x :: Quotable(key) && IsFlag(flag) && z == "\n" + Opening(key, flag, x)
  }

  /** What can follow the text of a parameter. */
  ghost predicate Ends(z: string) {
    z == "" || (PARAM_CLOSE <= z && Follows(z[|PARAM_CLOSE|..]))
  }

  /** From a key on, no string mark can be matched before the next tag. */
  lemma KeyRest(key: string, flag: string, x: string)
    requires '"' !in key && IsFlag(flag)
    ensures var t := key + ("\"" + Attr("string", flag, ">" + x));
      MatchAttr("string", t).Some? ==> !IsFlag(MatchAttr("string", t).value.value)
  {
    hide Attr, Until, SkipSpace;
    var z := "\"" + Attr("string", flag, ">" + x);
    if MatchAttr("string", key + z).Some? {
      SkipInside(key, z);
      var i: nat :| i <= |key| && SkipSpace(key + z) == key[i..] + z;
      QuoteAt("string=\"", key[i..], z);
      assert z[1..] == Attr("string", flag, ">" + x);
      AttrQuote(flag, x);
    }
  }

  /** An attribute's opening quote can only be the first quote there is. */
  lemma QuoteAt(p: string, u: string, z: string)
    requires p != "" && p[|p| - 1] == '"' && '"' !in p[..|p| - 1] && '"' !in u && z != "" && z[0] == '"'
    requires Expect(p, u + z).Some?
    ensures Expect(p, u + z) == Some(z[1..])
  {
    var t, n := u + z, |p| - 1;
    assert t[..|p|] == p && t[n] == '"' && t[|u|] == '"';
    assert forall k | 0 <= k < n :: t[k] == p[..n][k];
    assert forall k | 0 <= k < |u| :: t[k] == u[k];
    assert n == |u|;
    assert t[|p|..] == z[1..];
  }

  lemma AttrQuote(flag: string, x: string)
    ensures Until("\"", Attr("string", flag, ">" + x)) == Some(Split(" string=", flag + ("\"" + (">" + x))))
  {
    var rest := flag + ("\"" + (">" + x));
    FreeChar('"', " string=");
    UntilWritten("\"", " string=", rest);
    assert " " + "string=" == " string=" && "string" + "=\"" == "string=" + "\"";
    Assoc("string=", "\"", rest);
    Assoc(" ", "string=", "\"" + rest);
  }

  /** A second attribute matched from inside an unmarked text is no string mark. */
  lemma MarkSilent(b: string, z: string)
    requires Unmarked(b) && (z == "" || z[0] == '<')
    ensures MatchAttr("string", b + z).Some? ==> !IsFlag(MatchAttr("string", b + z).value.value)
  {
    hide MatchAttr, Until, Unmarked;
    if MatchAttr("string", b + z).Some? {
      var k := AttrInside("string", b, z);
      var rest := b[k..];
      if '"' in rest {
        var j := UntilInside("\"", rest, z);
        if IsFlag(rest[..j]) { MarkAt(b, k, j); }
      } else {
        UntilBeyond("\"", rest, z);
        BeforeQuote(z);
        var s := Until("\"", z).value;
        assert (rest + s.before)[|rest|] == '<';
      }
    }
  }

  lemma BeforeQuote(z: string)
    requires z == "" || z[0] == '<'
    ensures Until("\"", z).Some? ==> Until("\"", z).value.before != "" && Until("\"", z).value.before[0] == '<'
  {
    if Until("\"", z).Some? {
      var k := Find("\"", z).value;
      assert z[k + 0] == "\""[0];
    }
  }

  lemma MarkAt(b: string, k: nat, j: nat)
    requires 8 <= k <= |b| && b[k - 8..k] == "string=\"" && k + j < |b| && b[k..][j..j + 1] == "\""
    requires IsFlag(b[k..][..j])
    ensures !Unmarked(b)
  {
    var mark := if b[k..][..j] == "true" then TRUE_MARK else FALSE_MARK;
    SubSlice(b, k, 0, j);
    SubSlice(b, k, j, j + 1);
    assert b[k..][0..j] == b[k..][..j];
    assert b[k - 8..k + j + 1] == b[k - 8..k] + b[k..k + j] + b[k + j..k + j + 1];
    assert mark == "string=\"" + b[k..][..j] + "\"";
    SliceIsAt(mark, b, k - 8);
  }

  lemma SubSlice(b: string, k: nat, lo: nat, hi: nat)
    requires k <= |b| && lo <= hi <= |b| - k
    ensures b[k..][lo..hi] == b[k + lo..k + hi]
  {
    var x, y := b[k..][lo..hi], b[k + lo..k + hi];
    assert |x| == |y| && forall i | 0 <= i < |x| :: x[i] == b[k + (lo + i)] == y[i];
  }

  lemma SliceIsAt(tag: string, b: string, i: nat)
    requires i + |tag| <= |b| && b[i..i + |tag|] == tag
    ensures At(tag, b, i)
  {
    forall k | 0 <= k < |tag| ensures b[i + k] == tag[k] {
      assert b[i..i + |tag|][k] == b[i + k];
    }
  }

  lemma OpenInside(b: string, z: string)
    requires Expect(PARAM_OPEN, b + z).Some? && (z == "" || PARAM_CLOSE <= z)
    ensures |PARAM_OPEN| <= |b| && Expect(PARAM_OPEN, b + z) == Some(b[|PARAM_OPEN|..] + z)
  {
    var t, n := b + z, |PARAM_OPEN|;
    assert t[..n] == PARAM_OPEN && forall k | 0 <= k < n :: t[k] == PARAM_OPEN[k];
    assert '<' !in PARAM_OPEN[1..] && forall k | 1 <= k < n :: PARAM_OPEN[k] in PARAM_OPEN[1..];
    assert |b| < |t| ==> t[|b|] == z[0] == PARAM_CLOSE[0];
    assert |b| + 1 < |t| ==> t[|b| + 1] == z[1];
    assert z != "" ==> z[1] == PARAM_CLOSE[1];
    assert t[n..] == b[n..] + z;
  }

  lemma QuoteAhead(key: string, flag: string, x: string)
    ensures Until("\"", PARAM_CLOSE + ("\n" + Opening(key, flag, x)))
      == Some(Split(PARAM_CLOSE + ("\n" + (PARAM_OPEN + " name=")), key + ("\"" + Attr("string", flag, ">" + x))))
  {
    var before, rest := PARAM_CLOSE + ("\n" + (PARAM_OPEN + " name=")), key + ("\"" + Attr("string", flag, ">" + x));
    FreeChar('"', before);
    UntilWritten("\"", before, rest);
    OpeningQuote(key, flag, x);
    Nested(PARAM_CLOSE, "\n", PARAM_OPEN + " name=", "\"" + rest);
  }

  lemma OpeningQuote(key: string, flag: string, x: string)
    ensures Opening(key, flag, x) == (PARAM_OPEN + " name=") + ("\"" + (key + ("\"" + Attr("string", flag, ">" + x))))
  {
    var rest := key + ("\"" + Attr("string", flag, ">" + x));
    Assoc(" ", "name" + "=\"", rest);
    assert "name" + "=\"" == "name=" + "\"";
    Assoc("name=", "\"", rest);
    Assoc(" ", "name=", "\"" + rest);
    assert " " + "name=" == " name=";
    Assoc(PARAM_OPEN, " name=", "\"" + rest);
  }

  lemma Nested(a: string, b: string, c: string, d: string)
    ensures (a + (b + c)) + d == a + (b + (c + d))
  {
    Assoc(a, b + c, d);
    Assoc(b, c, d);
  }

  lemma QuoteNone(z: string)
    requires '"' !in z
    ensures Until("\"", PARAM_CLOSE + z) == None && Until("\"", "") == None
  {
    FreeChar('"', PARAM_CLOSE + z);
    FreeChar('"', "");
  }

  /** After the first quote behind a text, no string mark follows. */
  lemma BeyondSilent(z: string)
    requires Ends(z) && Until("\"", z).Some?
    ensures var after := Until("\"", z).value.after;
      MatchAttr("string", after).Some? ==> !IsFlag(MatchAttr("string", after).value.value)
  {
    if z == "" {
      QuoteNone("");
    } else {
      var y := z[|PARAM_CLOSE|..];
      assert z == PARAM_CLOSE + y;
      if '"' !in y {
        QuoteNone(y);
      } else {
        var key, flag, x :| Quotable(key) && IsFlag(flag) && y == "\n" + Opening(key, flag, x);
        QuoteAhead(key, flag, x);
        KeyRest(key, flag, x);
      }
    }
  }

  lemma UnmarkedFrom(b: string, k: nat)
    requires Unmarked(b) && k <= |b|
    ensures Unmarked(b[k..])
  {
    assert b[k..|b|] == b[k..];
    FreeSlice(TRUE_MARK, b, k, |b|);
    FreeSlice(FALSE_MARK, b, k, |b|);
  }

  /** No parameter begins inside an unmarked text. */
  lemma InnerSilent(b: string, z: string)
    requires Unmarked(b) && Ends(z)
    ensures MatchParameter(b + z) == None
  {
    hide Unmarked, Ends, MatchAttr, Follows;
    if Expect(PARAM_OPEN, b + z).Some? {
      EndsShape(z);
      OpenInside(b, z);
      var b1 := b[|PARAM_OPEN|..];
      if MatchAttr("name", b1 + z).Some? {
        NameSilent(b1, z) by { UnmarkedFrom(b, |PARAM_OPEN|); }
      }
    }
  }

  lemma EndsShape(z: string)
    requires Ends(z)
    ensures z == "" || PARAM_CLOSE <= z
    ensures z == "" || z[0] == '<'
  {
  }

  lemma NameSilent(b: string, z: string)
    requires Unmarked(b) && Ends(z) && MatchAttr("name", b + z).Some?
    ensures var rest := MatchAttr("name", b + z).value.rest;
      MatchAttr("string", rest).Some? ==> !IsFlag(MatchAttr("string", rest).value.value)
  {
    hide Unmarked, Ends, MatchAttr, Follows, Until, IsFlag;
    EndsShape(z);
    var k := AttrInside("name", b, z);
    var rest := b[k..];
    if '"' in rest {
      var j := UntilInside("\"", rest, z);
      assert rest[j + 1..] == b[k + j + 1..];
      UnmarkedFrom(b, k + j + 1);
      MarkSilent(rest[j + 1..], z);
    } else {
      UntilBeyond("\"", rest, z);
      BeyondSilent(z);
    }
  }

  /** Nor does one begin inside the key of a parameter. */
  lemma KeySilent(key: string, flag: string, x: string)
    requires '"' !in key && IsFlag(flag)
    ensures MatchParameter(key + ("\"" + Attr("string", flag, ">" + x))) == None
  {
    hide Attr, MatchAttr, Until;
    var z := "\"" + Attr("string", flag, ">" + x);
    if Expect(PARAM_OPEN, key + z).Some? {
      ExpectInside(PARAM_OPEN, key, z);
      KeyName(key[|PARAM_OPEN|..], flag, x);
      FlagRest(flag, "\"" + (">" + x));
    }
  }

  lemma KeyName(b: string, flag: string, x: string)
    requires '"' !in b && IsFlag(flag)
    ensures var t := b + ("\"" + Attr("string", flag, ">" + x));
      MatchAttr("name", t).Some? ==> MatchAttr("name", t).value.rest == flag + ("\"" + (">" + x))
  {
    hide Attr, Until, SkipSpace;
    var z := "\"" + Attr("string", flag, ">" + x);
    if MatchAttr("name", b + z).Some? {
      SkipInside(b, z);
      var i: nat :| i <= |b| && SkipSpace(b + z) == b[i..] + z;
      QuoteAt("name=\"", b[i..], z);
      assert z[1..] == Attr("string", flag, ">" + x);
      AttrQuote(flag, x);
    }
  }

  lemma FlagRest(flag: string, x: string)
    requires IsFlag(flag)
    ensures MatchAttr("string", flag + x) == None
  {
    assert (flag + x)[0] == flag[0];
    assert Expect("string=\"", flag + x) == None;
  }

  // ---- Reading on ----

  /** Text with no opening tag is passed over. */
  lemma {:induction false} PlainRead<J>(codec: Codec<J>, d: seq<Item<J>>, plain: string, more: string)
    requires '<' !in plain
    ensures ReadArguments(codec, d, plain + more) == ReadArguments(codec, d, more)
  {
    if plain == "" {
      assert plain + more == more;
    } else {
      assert plain[0] in plain && (plain + more)[0] == plain[0] && PARAM_OPEN[0] == '<';
      assert (plain + more)[1..] == plain[1..] + more;
      PlainRead(codec, d, plain[1..], more);
    }
  }

  /** So is the rest of a text behind a closing tag in it. */
  lemma {:induction false} InnerRead<J>(codec: Codec<J>, d: seq<Item<J>>, b: string, z: string)
    requires Unmarked(b) && Ends(z)
    ensures ReadArguments(codec, d, b + z) == ReadArguments(codec, d, z)
  {
    hide Unmarked, Ends, MatchParameter;
    if b == "" {
      assert b + z == z;
    } else {
      InnerSilent(b, z);
      assert (b + z)[1..] == b[1..] + z;
      UnmarkedFrom(b, 1);
      InnerRead(codec, d, b[1..], z);
    }
  }

  lemma CloseRead<J>(codec: Codec<J>, d: seq<Item<J>>, z: string)
    ensures ReadArguments(codec, d, PARAM_CLOSE + z) == ReadArguments(codec, d, z)
  {
    var t := PARAM_CLOSE + z;
    assert t[1] == PARAM_CLOSE[1] && PARAM_OPEN[1] != PARAM_CLOSE[1];
    assert t[1..] == PARAM_CLOSE[1..] + z;
    PlainRead(codec, d, PARAM_CLOSE[1..], z);
  }

  // ---- What is read for a text with a closing tag in it ----

  /** The text up to its first closing tag. */
  function Cut(t: string): (r: string)
    ensures Free(PARAM_CLOSE, r) && r <= t
    ensures r == t <==> Free(PARAM_CLOSE, t)
  {
    match Until(PARAM_CLOSE, t)
    case None => t
    case Some(s) => s.before
  }

  function CutItem<J>(codec: Codec<J>, i: Item<J>): Item<J> {
    Item(i.key, Decode(codec, Flag(i.arg), Cut(TextOf(codec, i.arg))))
  }

  function CutItems<J>(codec: Codec<J>, items: seq<Item<J>>): (r: seq<Item<J>>)
    ensures |r| == |items| && forall k | 0 <= k < |r| :: r[k] == CutItem(codec, items[k])
  {
    seq(|items|, k requires 0 <= k < |items| => CutItem(codec, items[k]))
  }

  predicate Readable<J>(codec: Codec<J>, i: Item<J>) {
    Quotable(i.key) && match i.arg case Text(t) => Free(PARAM_CLOSE, t) case Data(v) => Unmarked(codec.dumps(v))
  }

  lemma CutWritten(text: string, rest: string) returns (b: string)
    ensures Unmarked(text) ==> Unmarked(b)
    ensures Until(PARAM_CLOSE, text + (PARAM_CLOSE + rest))
      == Some(Split(Cut(text), if Free(PARAM_CLOSE, text) then rest else b + (PARAM_CLOSE + rest)))
  {
    hide Unmarked, Free;
    TagFacts();
    if Free(PARAM_CLOSE, text) {
      b := "";
      UnmarkedNone();
      UntilWritten(PARAM_CLOSE, text, rest);
    } else {
      b := CutClosed(text);
      Regroup(Cut(text), PARAM_CLOSE, b, PARAM_CLOSE + rest);
      UntilWritten(PARAM_CLOSE, Cut(text), b + (PARAM_CLOSE + rest));
    }
  }

  lemma Regroup(a: string, c: string, b: string, r: string)
    ensures (a + (c + b)) + r == a + (c + (b + r))
  {
    Assoc(a, c + b, r);
    Assoc(c, b, r);
  }

  lemma CutClosed(text: string) returns (b: string)
    requires !Free(PARAM_CLOSE, text)
    ensures text == Cut(text) + (PARAM_CLOSE + b) && (Unmarked(text) ==> Unmarked(b))
  {
    hide Unmarked;
    var k := Find(PARAM_CLOSE, text).value;
    AtSplit(PARAM_CLOSE, text, k);
    b := text[k + |PARAM_CLOSE|..];
    if Unmarked(text) { UnmarkedFrom(text, k + |PARAM_CLOSE|); }
  }

  lemma UnmarkedNone()
    ensures Unmarked("")
  {
    FreeWithoutFirst(TRUE_MARK, "");
    FreeWithoutFirst(FALSE_MARK, "");
  }

  lemma AtSplit(tag: string, t: string, k: nat)
    requires At(tag, t, k)
    ensures t == t[..k] + (tag + t[k + |tag|..])
  {
  }

  /** One printed parameter is read with its text cut, and the reader goes on behind it. */
  lemma ItemCut<J>(codec: Codec<J>, d: seq<Item<J>>, i: Item<J>, rest: string)
    requires Readable(codec, i) && Follows(rest)
    ensures ReadArguments(codec, d, Parameter(codec, i, rest))
         == ReadArguments(codec, SetItem(d, CutItem(codec, i)), rest)
  {
    hide Unmarked, Cut, Follows, Decode, SetItem;
    var text := TextOf(codec, i.arg);
    var b := CutWritten(text, rest);
    OpeningMatch(i.key, Flag(i.arg), text + (PARAM_CLOSE + rest));
    if !Free(PARAM_CLOSE, text) {
      EndsClosed(rest);
      InnerRead(codec, SetItem(d, CutItem(codec, i)), b, PARAM_CLOSE + rest);
      CloseRead(codec, SetItem(d, CutItem(codec, i)), rest);
    }
  }

  lemma EndsClosed(rest: string)
    requires Follows(rest)
    ensures Ends(PARAM_CLOSE + rest) && Ends("")
  {
    assert (PARAM_CLOSE + rest)[|PARAM_CLOSE|..] == rest;
  }

  lemma FollowsNext<J>(codec: Codec<J>, items: seq<Item<J>>, w: string)
    requires items != [] && Follows(w) && forall k | 0 <= k < |items| :: Readable(codec, items[k])
    ensures Follows((if |items| == 1 then "" else "\n") + Parameters(codec, items[1..], w))
  {
    if |items| == 1 {
      assert "" + w == w;
    } else {
      var i, more := items[1], (if |items| == 2 then "" else "\n") + Parameters(codec, items[2..], w);
      assert items[1..][0] == i && items[1..][1..] == items[2..];
      assert Parameters(codec, items[1..], w)
        == Opening(i.key, Flag(i.arg), TextOf(codec, i.arg) + (PARAM_CLOSE + more));
    }
  }

  /** Printed parameters extend the dictionary in order, each with its text cut. */
  lemma {:induction false} ArgumentsCut<J>(codec: Codec<J>, d: seq<Item<J>>, items: seq<Item<J>>, w: string)
    requires DistinctKeys(d + items) && Follows(w) && forall k | 0 <= k < |items| :: Readable(codec, items[k])
    ensures ReadArguments(codec, d, Parameters(codec, items, w)) == ReadArguments(codec, d + CutItems(codec, items), w)
    decreases |items|
  {
    hide ReadArguments, Parameter, Readable, Follows, CutItem, SetItem;
    if items == [] {
      assert d + CutItems(codec, items) == d;
    } else {
      var i, more, sep := CutItem(codec, items[0]), Parameters(codec, items[1..], w), if |items| == 1 then "" else "\n";
      FollowsNext(codec, items, w);
      ItemCut(codec, d, items[0], sep + more);
      NewKey(d, items);
      CutKey(codec, items[0]);
      SetNew(d, i);
      SeparatorSkipped(codec, d + [i], sep, more);
      MoveKeys(d, i, items);
      ArgumentsCut(codec, d + [i], items[1..], w);
      assert d + [i] + CutItems(codec, items[1..]) == d + CutItems(codec, items);
    }
  }

  lemma CutKey<J>(codec: Codec<J>, i: Item<J>)
    ensures CutItem(codec, i).key == i.key
  {
  }

  lemma MoveKeys<J>(d: seq<Item<J>>, i: Item<J>, items: seq<Item<J>>)
    requires items != [] && DistinctKeys(d + items) && i.key == items[0].key
    ensures DistinctKeys(d + [i] + items[1..])
  {
    assert forall k | 0 <= k < |d + items| :: (d + [i] + items[1..])[k].key == (d + items)[k].key;
  }

  // ---- A parameter whose text the block's end cuts off ----

  lemma {:induction false} KeyRead<J>(codec: Codec<J>, d: seq<Item<J>>, key: string, flag: string, x: string)
    requires '"' !in key && IsFlag(flag)
    ensures var z := "\"" + Attr("string", flag, ">" + x);
      ReadArguments(codec, d, key + z) == ReadArguments(codec, d, z)
  {
    hide MatchParameter, Attr;
    var z := "\"" + Attr("string", flag, ">" + x);
    if key == "" {
      assert key + z == z;
    } else {
      KeySilent(key, flag, x);
      assert (key + z)[1..] == key[1..] + z;
      KeyRead(codec, d, key[1..], flag, x);
    }
  }

  lemma OpeningSplit(key: string, flag: string, x: string)
    requires IsFlag(flag)
    ensures var lead, mark := PARAM_OPEN[1..] + " name=\"", "\" string=\"" + (flag + "\">");
      && '<' !in lead && '<' !in mark && "\"" + Attr("string", flag, ">" + x) == mark + x
      && Opening(key, flag, x) != "" && Opening(key, flag, x)[1..] == lead + (key + (mark + x))
  {
    var mark := "\" string=\"" + (flag + "\">");
    assert "\"" + Attr("string", flag, ">" + x) == mark + x;
    hide Opening, Attr;
    OpeningQuote(key, flag, x);
    Assoc(PARAM_OPEN + " name=", "\"", key + (mark + x));
    Assoc(PARAM_OPEN, " name=", "\"");
    assert " name=" + "\"" == " name=\"";
    Assoc(PARAM_OPEN, " name=\"", key + (mark + x));
    Behind(PARAM_OPEN, " name=\"", key + (mark + x));
  }

  lemma Behind(a: string, b: string, c: string)
    requires a != ""
    ensures (a + (b + c))[1..] == a[1..] + b + c
  {
  }

  lemma OpenRead<J>(codec: Codec<J>, d: seq<Item<J>>, key: string, flag: string, x: string)
    requires Quotable(key) && IsFlag(flag) && Free(PARAM_CLOSE, x) && Unmarked(x)
    ensures ReadArguments(codec, d, Opening(key, flag, x)) == d
  {
    OpeningMatch(key, flag, x);
    OpeningSplit(key, flag, x);
    hide Unmarked, Opening, MatchParameter, Free;
    var lead, mark := PARAM_OPEN[1..] + " name=\"", "\" string=\"" + (flag + "\">");
    assert ReadArguments(codec, d, Opening(key, flag, x)) == ReadArguments(codec, d, Opening(key, flag, x)[1..]);
    PlainRead(codec, d, lead, key + (mark + x));
    KeyRead(codec, d, key, flag, x);
    PlainRead(codec, d, mark, x);
    InnerAlone(codec, d, x);
  }

  lemma InnerAlone<J>(codec: Codec<J>, d: seq<Item<J>>, b: string)
    requires Unmarked(b)
    ensures ReadArguments(codec, d, b) == d
  {
    assert b + "" == b;
    InnerRead(codec, d, b, "");
  }

  /** It is lost, or, when a closing tag is left in it, read up to there. */
  lemma PartialRead<J>(codec: Codec<J>, d: seq<Item<J>>, key: string, flag: string, x: string)
    requires Quotable(key) && IsFlag(flag) && Unmarked(x)
    ensures ReadArguments(codec, d, Opening(key, flag, x))
      == if Free(PARAM_CLOSE, x) then d else SetItem(d, Item(key, Decode(codec, flag, Cut(x))))
  {
    if Free(PARAM_CLOSE, x) {
      OpenRead(codec, d, key, flag, x);
    } else {
      hide Unmarked, SetItem, Decode;
      OpeningMatch(key, flag, x);
      var k := Find(PARAM_CLOSE, x).value;
      UnmarkedFrom(x, k + |PARAM_CLOSE|);
      InnerAlone(codec, SetItem(d, Item(key, Decode(codec, flag, Cut(x)))), x[k + |PARAM_CLOSE|..]);
    }
  }

  // ---- The block of an invocation with its own closing tag in a text ----

  lemma {:induction false} ParametersSplit<J>(codec: Codec<J>, items: seq<Item<J>>, i: nat, w: string)
    requires i < |items|
    ensures Parameters(codec, items, w)
      == Parameters(codec, items[..i], (if i == 0 then "" else "\n")
           + Parameter(codec, items[i], (if |items| == i + 1 then "" else "\n") + Parameters(codec, items[i + 1..], w)))
  {
    hide Parameter;
    var last := Parameter(codec, items[i],
      (if |items| == i + 1 then "" else "\n") + Parameters(codec, items[i + 1..], w));
    if i == 0 {
      assert "" + last == last;
    } else {
      ParametersSplit(codec, items[1..], i - 1, w);
      assert items[1..][..i - 1] == items[..i][1..] && items[1..][i..] == items[i + 1..];
      if i == 1 {
        assert "" + last == last && "" + ("\n" + last) == "\n" + last;
      }
    }
  }

  lemma OpeningAppend(key: string, flag: string, x: string, y: string)
    ensures Opening(key, flag, x + y) == Opening(key, flag, x) + y
  {
    hide Attr;
    Assoc(">", x, y);
    AttrAppend("string", flag, ">" + x, y);
    AttrAppend("name", key, Attr("string", flag, ">" + x), y);
    Assoc(PARAM_OPEN, Attr("name", key, Attr("string", flag, ">" + x)), y);
  }

  lemma OpeningFree(key: string, flag: string, x: string)
    requires Free(INVOKE_CLOSE, key) && Free(INVOKE_CLOSE, x) && IsFlag(flag)
    ensures Free(INVOKE_CLOSE, Opening(key, flag, x))
  {
    hide Free, Attr;
    TagFacts();
    FreeOtherTags();
    FreeWithoutFirst(INVOKE_CLOSE, ">");
    FreeConcat(INVOKE_CLOSE, ">", x);
    FreeWithoutFirst(INVOKE_CLOSE, flag);
    FreeAttr("string", flag, ">" + x);
    FreeAttr("name", key, Attr("string", flag, ">" + x));
    FreeConcat(INVOKE_CLOSE, PARAM_OPEN, Attr("name", key, Attr("string", flag, ">" + x)));
  }

  lemma OpeningEnds(key: string, flag: string, x: string)
    ensures var o := Opening(key, flag, x); o != "" && o[0] == '<'
    ensures var o := Opening(key, flag, ""); o[|o| - 1] == '>'
  {
    LastOfAttr("string", flag, ">" + "");
    LastOfAttr("name", key, Attr("string", flag, ">" + ""));
    LastOfAppend(PARAM_OPEN, Attr("name", key, Attr("string", flag, ">" + "")));
  }

  lemma {:induction false} TrimKeeps(p: string, a: string)
    requires p != "" && !IsSpace(p[|p| - 1])
    ensures TrimEnd(p + a) == p + TrimEnd(a)
  {
    if a == "" {
      assert p + a == p;
    } else if IsSpace(a[|a| - 1]) {
      assert (p + a)[..|p + a| - 1] == p + a[..|a| - 1];
      TrimKeeps(p, a[..|a| - 1]);
    }
  }

  /** Complete parameters, then the opening of one and the beginning `x` of its text. */
  function Head<J>(codec: Codec<J>, items: seq<Item<J>>, key: string, flag: string, x: string): string {
    Parameters(codec, items, (if items == [] then "" else "\n") + Opening(key, flag, x))
  }

  lemma HeadAppend<J>(codec: Codec<J>, items: seq<Item<J>>, key: string, flag: string, x: string, y: string)
    ensures Head(codec, items, key, flag, x + y) == Head(codec, items, key, flag, x) + y
  {
    hide Opening;
    var sep := if items == [] then "" else "\n";
    OpeningAppend(key, flag, x, y);
    Assoc(sep, Opening(key, flag, x), y);
    ParametersAppend(codec, items, sep + Opening(key, flag, x), y);
  }

  lemma HeadShape<J>(codec: Codec<J>, items: seq<Item<J>>, key: string, flag: string, x: string)
    ensures var h := Head(codec, items, key, flag, x); h != "" && h[0] == '<'
    ensures var h := Head(codec, items, key, flag, ""); h != "" && h[|h| - 1] == '>'
  {
    hide Opening, Parameters;
    var sep := if items == [] then "" else "\n";
    OpeningEnds(key, flag, x);
    OpeningEnds(key, flag, "");
    HeadLast(codec, items, sep, Opening(key, flag, ""));
    if items == [] {
      HeadBare(codec, sep + Opening(key, flag, x));
      assert "" + Opening(key, flag, x) == Opening(key, flag, x);
    } else {
      HeadFirst(codec, items, sep + Opening(key, flag, x));
    }
  }

  lemma HeadBare<J>(codec: Codec<J>, w: string)
    ensures Parameters<J>(codec, [], w) == w
  {
  }

  lemma HeadLast<J>(codec: Codec<J>, items: seq<Item<J>>, sep: string, o: string)
    requires o != ""
    ensures var h := Parameters(codec, items, sep + o); h != "" && h[|h| - 1] == o[|o| - 1]
  {
    hide Parameters;
    ParametersAppend(codec, items, "", sep + o);
    assert "" + (sep + o) == sep + o;
    LastOfAppend(sep, o);
    LastOfAppend(Parameters(codec, items, ""), sep + o);
  }

  lemma HeadFirst<J>(codec: Codec<J>, items: seq<Item<J>>, w: string)
    requires items != []
    ensures var p := Parameters(codec, items, w); p != "" && p[0] == '<'
  {
  }

  lemma HeadFree<J>(codec: Codec<J>, items: seq<Item<J>>, key: string, flag: string, x: string)
    requires forall k | 0 <= k < |items| :: Contained(codec, items[k])
    requires Free(INVOKE_CLOSE, key) && Free(INVOKE_CLOSE, x) && IsFlag(flag)
    ensures Free(INVOKE_CLOSE, Head(codec, items, key, flag, x))
  {
    hide Free, Opening, Contained;
    TagFacts();
    var sep := if items == [] then "" else "\n";
    OpeningFree(key, flag, x);
    FreeWithoutFirst(INVOKE_CLOSE, sep);
    FreeConcat(INVOKE_CLOSE, sep, Opening(key, flag, x));
    FreeParameters(codec, items, sep + Opening(key, flag, x));
  }

  /** The block ends inside the first text that holds the invocation's closing tag. */
  lemma BlockCut<J>(codec: Codec<J>, items: seq<Item<J>>, i: nat, w: string) returns (x: string)
    requires i < |items| && (forall k | 0 <= k < i :: Contained(codec, items[k]))
    requires Free(INVOKE_CLOSE, items[i].key) && !Free(INVOKE_CLOSE, TextOf(codec, items[i].arg))
    ensures x <= TextOf(codec, items[i].arg) && |x| < |TextOf(codec, items[i].arg)|
    ensures var split := Until(INVOKE_CLOSE, SkipSpace("\n" + Parameters(codec, items, w)));
      split.Some? && TrimEnd(split.value.before) == Head(codec, items[..i], items[i].key, Flag(items[i].arg), x)
  {
    hide Free, Opening, Contained, Parameters, Head, TrimEnd, SkipSpace;
    TagFacts();
    var key, flag, text := items[i].key, Flag(items[i].arg), TextOf(codec, items[i].arg);
    var a, y := BodyCut(codec, items, i, w);
    var h := Head(codec, items[..i], key, flag, a);
    HeadFree(codec, items[..i], key, flag, a);
    HeadShape(codec, items[..i], key, flag, a);
    SkipSpaceRun("\n", h + (INVOKE_CLOSE + y));
    UntilWritten(INVOKE_CLOSE, h, y);
    x := TrimEnd(a);
    HeadAppend(codec, items[..i], key, flag, "", a);
    HeadAppend(codec, items[..i], key, flag, "", x);
    assert "" + a == a && "" + x == x;
    TrimKeeps(Head(codec, items[..i], key, flag, ""), a);
  }

  lemma BodyCut<J>(codec: Codec<J>, items: seq<Item<J>>, i: nat, w: string) returns (a: string, y: string)
    requires i < |items| && !Free(INVOKE_CLOSE, TextOf(codec, items[i].arg))
    ensures a <= TextOf(codec, items[i].arg) && |a| < |TextOf(codec, items[i].arg)| && Free(INVOKE_CLOSE, a)
    ensures Parameters(codec, items, w)
      == Head(codec, items[..i], items[i].key, Flag(items[i].arg), a) + (INVOKE_CLOSE + y)
  {
    hide Parameters, Free, Attr;
    var key, flag, text := items[i].key, Flag(items[i].arg), TextOf(codec, items[i].arg);
    a, y := SplitAt(INVOKE_CLOSE, text);
    var after := (if |items| == i + 1 then "" else "\n") + Parameters(codec, items[i + 1..], w);
    ParametersSplit(codec, items, i, w);
    assert items[..i] == [] <==> i == 0;
    Regroup(a, INVOKE_CLOSE, y, PARAM_CLOSE + after);
    y := y + (PARAM_CLOSE + after);
    assert Parameter(codec, items[i], after) == Opening(key, flag, a + (INVOKE_CLOSE + y));
    HeadAppend(codec, items[..i], key, flag, a, INVOKE_CLOSE + y);
  }

  lemma SplitAt(tag: string, t: string) returns (a: string, b: string)
    requires tag != "" && !Free(tag, t)
    ensures t == a + (tag + b) && Free(tag, a) && a <= t && |a| < |t|
  {
    var k := Find(tag, t).value;
    FreeBeforeFirst(tag, t);
    AtSplit(tag, t, k);
    a, b := t[..k], t[k + |tag|..];
  }

  // ---- Main result ----

  lemma NotBack<J(!new)>(codec: Codec<J>, v: J, p: string)
    requires Delimited(codec) && p <= codec.dumps(v) && |p| < |codec.dumps(v)|
    ensures Decode(codec, "false", p) != Data(v)
  {
    assert p == codec.dumps(v)[..|p|];
  }

  lemma CleanReadable<J(!new)>(codec: Codec<J>, i: Item<J>)
    requires Delimited(codec) && CleanItem(i)
    ensures Readable(codec, i) && (!PrintableItem(codec, i) ==> i.arg.Data?)
    ensures !Contained(codec, i) ==> !Free(INVOKE_CLOSE, TextOf(codec, i.arg)) && i.arg.Data?
  {
  }

  lemma AllCut<J(!new)>(codec: Codec<J>, items: seq<Item<J>>, k: nat)
    requires Delimited(codec) && CleanItems(items) && k < |items|
    requires Contained(codec, items[k]) && !PrintableItem(codec, items[k])
    ensures ReadArguments(codec, [], Parameters(codec, items, "")) != items
  {
    hide Parameters, Readable, Contained, PrintableItem, CutItem, Delimited, CleanItem;
    forall j | 0 <= j < |items| ensures Readable(codec, items[j]) { CleanReadable(codec, items[j]); }
    assert [] + items == items && [] + CutItems(codec, items) == CutItems(codec, items);
    ArgumentsCut(codec, [], items, "");
    CutDiffers(codec, items[k]);
    assert CutItems(codec, items)[k] != items[k];
  }

  lemma CutDiffers<J(!new)>(codec: Codec<J>, i: Item<J>)
    requires Delimited(codec) && CleanItem(i) && Contained(codec, i) && !PrintableItem(codec, i)
    ensures CutItem(codec, i) != i
  {
    hide Delimited, Free, Decode;
    NotBack(codec, i.arg.value, Cut(TextOf(codec, i.arg)));
  }

  lemma HeadRead<J(!new)>(codec: Codec<J>, items: seq<Item<J>>, i: nat, x: string)
    requires Delimited(codec) && CleanItems(items) && i < |items| && !Contained(codec, items[i])
    requires x <= TextOf(codec, items[i].arg) && |x| < |TextOf(codec, items[i].arg)|
    ensures ReadArguments(codec, [], Head(codec, items[..i], items[i].key, Flag(items[i].arg), x)) != items
  {
    hide Parameters, Unmarked, Opening, Contained, ReadArguments, Cut, Decode;
    var key, before := items[i].key, items[..i];
    forall j | 0 <= j < |items| ensures Readable(codec, items[j]) { CleanReadable(codec, items[j]); }
    CleanReadable(codec, items[i]);
    var v, d := items[i].arg.value, CutItems(codec, before);
    var o := Opening(key, "false", x);
    PrefixUnmarked(codec.dumps(v), x);
    HeadFollows(codec, before, key, x);
    PartialRead(codec, d, key, "false", x);
    SetCut(codec, items, i, Item(key, Decode(codec, "false", Cut(x))));
    NotBack(codec, v, Cut(x));
  }

  lemma SetCut<J>(codec: Codec<J>, items: seq<Item<J>>, i: nat, last: Item<J>)
    requires DistinctKeys(items) && i < |items| && last.key == items[i].key
    ensures SetItem(CutItems(codec, items[..i]), last) == CutItems(codec, items[..i]) + [last]
  {
    var d := CutItems(codec, items[..i]);
    forall k | 0 <= k < |d| ensures d[k].key != last.key { assert d[k] == CutItem(codec, items[..i][k]); }
    SetNew(d, last);
  }

  lemma PrefixUnmarked(t: string, x: string)
    requires Unmarked(t) && x <= t
    ensures Unmarked(x)
  {
    assert t[0..|x|] == x;
    FreeSlice(TRUE_MARK, t, 0, |x|);
    FreeSlice(FALSE_MARK, t, 0, |x|);
  }

  lemma HeadFollows<J>(codec: Codec<J>, items: seq<Item<J>>, key: string, x: string)
    requires DistinctKeys(items) && Quotable(key) && forall j | 0 <= j < |items| :: Readable(codec, items[j])
    ensures ReadArguments(codec, [], Head(codec, items, key, "false", x))
         == ReadArguments(codec, CutItems(codec, items), Opening(key, "false", x))
  {
    hide Opening, Readable;
    var o, d := Opening(key, "false", x), CutItems(codec, items);
    if items == [] {
      assert "" + o == o && d == [];
    } else {
      assert [] + items == items && [] + d == d;
      ArgumentsCut(codec, [], items, "\n" + o);
      SeparatorSkipped(codec, d, "\n", o);
    }
  }

  lemma InvokeMatched<J>(codec: Codec<J>, c: Call<J>, rest: string)
    requires Quotable(c.name)
    ensures var split :=
      Until(INVOKE_CLOSE, SkipSpace("\n" + Parameters(codec, c.arguments, "\n" + (INVOKE_CLOSE + rest))));
      split.Some? ==>
        && ReadCalls(codec, Invocation(codec, c, rest)) != []
        && ReadCalls(codec, Invocation(codec, c, rest))[0].arguments
           == ReadArguments(codec, [], TrimEnd(split.value.before))
  {
    var v := "\n" + Parameters(codec, c.arguments, "\n" + (INVOKE_CLOSE + rest));
    ExpectWritten(INVOKE_OPEN, Attr("name", c.name, ">" + v));
    AttrWritten("name", c.name, ">" + v);
    ExpectWritten(">", v);
  }

  /** A call that is not printable comes back with other arguments. */
  lemma InvocationCut<J(!new)>(codec: Codec<J>, c: Call<J>, rest: string)
    requires Delimited(codec) && Quotable(c.name) && CleanItems(c.arguments) && !Printable(codec, c)
    ensures ReadCalls(codec, Invocation(codec, c, rest)) != []
    ensures ReadCalls(codec, Invocation(codec, c, rest))[0].arguments != c.arguments
  {
    hide Parameters, Invocation, ReadCalls, ReadArguments, Contained, PrintableItem, CleanItem, Delimited, Head;
    var items, w := c.arguments, "\n" + (INVOKE_CLOSE + rest);
    InvokeMatched(codec, c, rest);
    if i: nat :| i < |items| && !Contained(codec, items[i]) {
      var first := FirstOpen(codec, items, i);
      CleanReadable(codec, items[first]);
      KeyContained(items[first]);
      var x := BlockCut(codec, items, first, w);
      HeadRead(codec, items, first, x);
    } else {
      BlockWritten(codec, items, rest, Parameters(codec, items, w));
      var k :| 0 <= k < |items| && !PrintableItem(codec, items[k]);
      AllCut(codec, items, k);
    }
  }

  lemma KeyContained<J>(i: Item<J>)
    requires CleanItem(i)
    ensures Free(INVOKE_CLOSE, i.key)
  {
  }

  lemma {:induction false} FirstOpen<J>(codec: Codec<J>, items: seq<Item<J>>, i: nat) returns (first: nat)
    requires i < |items| && !Contained(codec, items[i])
    ensures first < |items| && !Contained(codec, items[first]) &&
      forall k | 0 <= k < first :: Contained(codec, items[k])
  {
    hide Contained;
    if k: nat :| k < i && !Contained(codec, items[k]) {
      first := FirstOpen(codec, items, k);
    } else {
      first := i;
    }
  }

  lemma {:induction false} AllPrintable<J(!new)>(codec: Codec<J>, calls: seq<Call<J>>, rest: string)
    requires Lawful(codec) && Delimited(codec)
    requires forall c | 0 <= c < |calls| :: Quotable(calls[c].name) && CleanItems(calls[c].arguments)
    requires calls <= ReadCalls(codec, Invocations(codec, calls, rest))
    ensures forall c | 0 <= c < |calls| :: Printable(codec, calls[c])
  {
    hide ReadCalls, Invocation, CleanItems, Printable, Lawful, Delimited;
    if calls != [] {
      var c, sep, more := calls[0], if |calls| == 1 then "" else "\n", Invocations(codec, calls[1..], rest);
      if !Printable(codec, c) {
        InvocationCut(codec, c, sep + more);
        assert false;
      }
      InvocationWritten(codec, c, sep + more);
      LineSkipped(codec, sep, more);
      assert ReadCalls(codec, Invocations(codec, calls, rest))[1..] == ReadCalls(codec, more);
      AllPrintable(codec, calls[1..], rest);
    }
  }

  /** The trip succeeds exactly when every call is printable: names and keys quotable and keys distinct, no text with
      a parameter's closing tag, no key or text with an invocation's. */
  lemma RoundTripIff<J(!new)>(codec: Codec<J>, calls: seq<Call<J>>)
    requires Lawful(codec) && Delimited(codec) && calls != []
    ensures ToolCalls(codec, Printed(codec, calls)) == Functions(calls)
       <==> forall c | 0 <= c < |calls| :: Printable(codec, calls[c])
  {
    hide ReadCalls, Printed, Printable, Invocations, CleanItems;
    var rest := "\n" + CALLS_CLOSE;
    if forall c | 0 <= c < |calls| :: Printable(codec, calls[c]) {
      PrintThenParse(codec, calls);
    }
    CallsClean(codec, Printed(codec, calls));
    PrintedReads(codec, calls);
    if ToolCalls(codec, Printed(codec, calls)) == Functions(calls) {
      assert forall c | 0 <= c < |calls| :: ReadCalls(codec, Printed(codec, calls))[c] == calls[c];
      AllPrintable(codec, calls, rest);
    }
  }

  /** A lawful codec whose one text holds a closing tag. */
  const BROKEN: string := "[\"" + PARAM_CLOSE + "\"]"

  datatype Only = Only

  function BrokenCodec(): Codec<Only> {
    Codec(_ => BROKEN, t => if t == BROKEN then Some(Only) else None)
  }

  lemma BrokenLaws()
    ensures Lawful(BrokenCodec()) && Delimited(BrokenCodec())
  {
    FreeWithoutFirst(TRUE_MARK, BROKEN);
    FreeWithoutFirst(FALSE_MARK, BROKEN);
    hide Free;
    var codec := BrokenCodec();
    forall v ensures codec.loads(codec.dumps(v)) == Some(v) {
      assert v == Only;
    }
    forall v, n | 0 <= n < |codec.dumps(v)| ensures codec.loads(codec.dumps(v)[..n]) != Some(v) {
      assert |codec.dumps(v)[..n]| < |BROKEN|;
    }
  }

  lemma BrokenText()
    ensures !Free(PARAM_CLOSE, BROKEN)
  {
    assert At(PARAM_CLOSE, BROKEN, 2);
  }

  /** Lawful codecs alone do not make every call survive: a JSON value whose text holds a closing tag is lost. */
  lemma LossExample()
    ensures var codec := BrokenCodec(); var calls := [Call("f", [Item("k", Data(Only))])];
      && Lawful(codec) && Delimited(codec)
      && ToolCalls(codec, Printed(codec, calls)) != Functions(calls)
  {
    var codec, i := BrokenCodec(), Item("k", Data(Only));
    var calls := [Call("f", [i])];
    BrokenLaws();
    BrokenText();
    hide Free, Printed, ToolCalls, Lawful, Delimited;
    assert TextOf(codec, i.arg) == BROKEN;
    assert !PrintableItem(codec, calls[0].arguments[0]);
    hide BrokenCodec, PrintableItem;
    assert !Printable(codec, calls[0]);
    RoundTripIff(codec, calls);
  }
}
