/** Text scanning: whitespace runs and first occurrences of a tag, with the facts about
    concatenation that let a delimiter be found again after it was printed. */
module Scanner {
  import opened Wrappers

  /** The characters the pattern class `\s` accepts in Python text patterns. */
  predicate IsSpace(c: char) {
    var n := c as int;
    || 0x09 <= n <= 0x0D || 0x1C <= n <= 0x20 || n == 0x85 || n == 0xA0 || n == 0x1680
    || 0x2000 <= n <= 0x200A || n == 0x2028 || n == 0x2029 || n == 0x202F || n == 0x205F || n == 0x3000
  }

  /** Drops the leading whitespace run. */
  function SkipSpace(t: string): (r: string)
    ensures |r| <= |t| && (r == "" || !IsSpace(r[0]))
  {
    if t != "" && IsSpace(t[0]) then SkipSpace(t[1..]) else t
  }

  /** Drops the trailing whitespace run. */
  function TrimEnd(t: string): (r: string)
    ensures r <= t
  {
    if t != "" && IsSpace(t[|t| - 1]) then TrimEnd(t[..|t| - 1]) else t
  }

  /** `tag` is written in `t` at position `i`. */
  predicate At(tag: string, t: string, i: nat) {
    i + |tag| <= |t| && forall k | 0 <= k < |tag| :: t[i + k] == tag[k]
  }

  function FindFrom(tag: string, t: string, from: nat): (r: Option<nat>)
    requires from <= |t|
    ensures r.Some? ==> from <= r.value && At(tag, t, r.value) && forall i: nat | from <= i < r.value :: !At(tag, t, i)
    ensures r.None? ==> forall i: nat | from <= i :: !At(tag, t, i)
    decreases |t| - from
  {
    if At(tag, t, from) then Some(from)
    else if from == |t| then None
    else FindFrom(tag, t, from + 1)
  }

  /** The first position at which `tag` occurs in `t`. */
  function Find(tag: string, t: string): (r: Option<nat>)
    ensures r.Some? ==> At(tag, t, r.value) && forall i: nat | i < r.value :: !At(tag, t, i)
    ensures r.None? ==> forall i: nat :: !At(tag, t, i)
  {
    FindFrom(tag, t, 0)
  }

  /** No position of `t` carries `tag`. */
  predicate Free(tag: string, t: string) {
    Find(tag, t) == None
  }

  lemma FreeSlice(tag: string, t: string, lo: nat, hi: nat)
    requires lo <= hi <= |t| && Free(tag, t)
    ensures Free(tag, t[lo..hi])
  {
    assert forall i: nat :: At(tag, t[lo..hi], i) ==> At(tag, t, lo + i);
  }

  lemma FreeTrimEnd(tag: string, t: string)
    requires Free(tag, t)
    ensures Free(tag, TrimEnd(t))
  {
    FreeSlice(tag, t, 0, |TrimEnd(t)|);
    assert t[0..|TrimEnd(t)|] == TrimEnd(t);
  }

  lemma FreeChar(c: char, t: string)
    ensures Free([c], t) <==> c !in t
  {
    forall i: nat ensures At([c], t, i) <==> i < |t| && t[i] == c {
      assert [c][0] == c;
    }
    if c in t {
      var i :| 0 <= i < |t| && t[i] == c;
      assert At([c], t, i);
    }
  }

  lemma FreeBeforeFirst(tag: string, t: string)
    requires tag != "" && Find(tag, t).Some?
    ensures Free(tag, t[..Find(tag, t).value])
  {
    assert forall i: nat :: At(tag, t[..Find(tag, t).value], i) ==> At(tag, t, i);
  }

  lemma FreeWithoutFirst(tag: string, t: string)
    requires tag != "" && tag[0] !in t
    ensures Free(tag, t)
  {
    assert forall i: nat :: At(tag, t, i) ==> t[i + 0] == tag[0];
  }

  /** Joining two tag-free texts is tag-free when no occurrence can straddle the seam. */
  lemma FreeConcat(tag: string, x: string, y: string)
    requires tag != "" && Free(tag, x) && Free(tag, y)
    requires x == "" || y == "" || x[|x| - 1] !in tag[..|tag| - 1] || y[0] !in tag[1..]
    ensures Free(tag, x + y)
  {
    forall i: nat ensures !At(tag, x + y, i) {
      if i >= |x| {
        assert At(tag, x + y, i) ==> At(tag, y, i - |x|);
      } else if i + |tag| <= |x| {
        assert At(tag, x + y, i) ==> At(tag, x, i);
      } else if i + |tag| <= |x + y| {
        var a, b := |x| - 1 - i, |x| - i;
        assert tag[a] in tag[..|tag| - 1] && tag[b] in tag[1..];
        assert (x + y)[i + a] == x[|x| - 1] && (x + y)[i + b] == y[0];
      }
    }
  }

  /** What follows `p` when `t` begins with it. */
  function Expect(p: string, t: string): (r: Option<string>)
    ensures r.Some? ==> |r.value| + |p| == |t|
  {
    if p <= t then Some(t[|p|..]) else None
  }

  datatype Split = Split(before: string, after: string)

  /** The text around the first occurrence of `tag`. */
  function Until(tag: string, t: string): (r: Option<Split>)
    requires tag != ""
    ensures r.Some? ==> Free(tag, r.value.before) && |r.value.before| + |tag| + |r.value.after| == |t|
  {
    match Find(tag, t)
    case None => None
    case Some(i) => FreeBeforeFirst(tag, t); Some(Split(t[..i], t[i + |tag|..]))
  }

  lemma ExpectWritten(p: string, x: string)
    ensures Expect(p, p + x) == Some(x)
  {
    assert (p + x)[|p|..] == x;
  }

  /** A tag whose first character does not recur in it is found where it was written. */
  lemma UntilWritten(tag: string, x: string, rest: string)
    requires tag != "" && tag[0] !in tag[1..] && Free(tag, x)
    ensures Until(tag, x + (tag + rest)) == Some(Split(x, rest))
  {
    hide FindFrom;
    var t := x + (tag + rest);
    NotBefore(tag, x, rest);
    assert At(tag, t, |x|);
    assert Find(tag, t) == Some(|x|);
    assert t[..|x|] == x && t[|x| + |tag|..] == rest;
  }

  lemma NotBefore(tag: string, x: string, rest: string)
    requires tag != "" && tag[0] !in tag[1..] && Free(tag, x)
    ensures forall i: nat | i < |x| :: !At(tag, x + (tag + rest), i)
  {
    hide FindFrom;
    var t := x + (tag + rest);
    forall i: nat | i < |x| ensures !At(tag, t, i) {
      if i + |tag| <= |x| {
        assert At(tag, t, i) ==> At(tag, x, i);
      } else {
        assert tag[|x| - i] in tag[1..] && t[i + (|x| - i)] == tag[0];
      }
    }
  }

  lemma UntilFree(free: string, tag: string, t: string)
    requires tag != "" && Free(free, t) && Until(tag, t).Some?
    ensures Free(free, Until(tag, t).value.before) && Free(free, Until(tag, t).value.after)
  {
    var i := Find(tag, t).value;
    assert t[0..i] == t[..i] && t[i + |tag|..|t|] == t[i + |tag|..];
    FreeSlice(free, t, 0, i);
    FreeSlice(free, t, i + |tag|, |t|);
  }

  lemma FreeSuffix(free: string, t: string, s: string)
    requires Free(free, t) && |s| <= |t| && s == t[|t| - |s|..]
    ensures Free(free, s)
  {
    assert t[|t| - |s|..|t|] == s;
    FreeSlice(free, t, |t| - |s|, |t|);
  }

  lemma Assoc(a: string, b: string, c: string)
    ensures a + b + c == a + (b + c)
  {
  }

  lemma {:induction false} SkipSpaceRun(ws: string, t: string)
    requires forall c :: c in ws ==> IsSpace(c)
    requires t == "" || !IsSpace(t[0])
    ensures SkipSpace(ws + t) == t
  {
    if ws == "" {
      assert ws + t == t;
    } else {
      assert (ws + t)[0] == ws[0] && ws[0] in ws;
      assert (ws + t)[1..] == ws[1..] + t;
      SkipSpaceRun(ws[1..], t);
    }
  }

  lemma {:induction false} SkipSpaceSuffix(t: string)
    ensures SkipSpace(t) == t[|t| - |SkipSpace(t)|..]
  {
    if t != "" && IsSpace(t[0]) { SkipSpaceSuffix(t[1..]); }
  }

  lemma TrimNewline(t: string)
    requires t == "" || !IsSpace(t[|t| - 1])
    ensures TrimEnd(t + "\n") == t && TrimEnd(t) == t
  {
    assert (t + "\n")[..|t|] == t;
  }
}
