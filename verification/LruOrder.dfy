/** Order of last occurrence, and how a bounded list of keys follows it. */
module LruOrder {

  function Remove<K(==)>(s: seq<K>, k: K): seq<K> {
    if s == [] then [] else Remove(s[..|s| - 1], k) + if s[|s| - 1] == k then [] else [s[|s| - 1]]
  }

  /** The keys of `s` in the order of their last occurrence. */
  function ByLastUse<K(==)>(s: seq<K>): seq<K> {
    if s == [] then [] else Remove(ByLastUse(s[..|s| - 1]), s[|s| - 1]) + [s[|s| - 1]]
  }

  /** The last `n` elements. */
  function Newest<K>(s: seq<K>, n: nat): (r: seq<K>)
    ensures |r| <= n && |r| <= |s| && r == s[|s| - |r|..]
    ensures |s| <= n ==> r == s
    ensures |s| >= n ==> |r| == n
  {
    if |s| <= n then s else s[|s| - n..]
  }

  predicate Distinct<K(==)>(s: seq<K>) {
    forall i, j | 0 <= i < j < |s| :: s[i] != s[j]
  }

  lemma {:induction false} RemoveKeeps<K>(s: seq<K>, k: K, x: K)
    ensures x in Remove(s, k) <==> x in s && x != k
  {
    if s != [] {
      RemoveKeeps(s[..|s| - 1], k, x);
      assert s == s[..|s| - 1] + [s[|s| - 1]];
    }
  }

  lemma {:induction false} RemoveAbsent<K>(s: seq<K>, k: K)
    requires k !in s
    ensures Remove(s, k) == s
  {
    if s != [] {
      assert s[|s| - 1] in s;
      RemoveAbsent(s[..|s| - 1], k);
    }
  }

  lemma {:induction false} RemoveConcat<K>(a: seq<K>, b: seq<K>, k: K)
    ensures Remove(a + b, k) == Remove(a, k) + Remove(b, k)
  {
    if b == [] {
      assert a + b == a;
    } else {
      assert (a + b)[..|a + b| - 1] == a + b[..|b| - 1];
      RemoveConcat(a, b[..|b| - 1], k);
    }
  }

  lemma {:induction false} RemoveDistinct<K>(s: seq<K>, k: K)
    requires Distinct(s)
    ensures Distinct(Remove(s, k)) && |Remove(s, k)| == |s| - if k in s then 1 else 0
  {
    if s != [] {
      var n := |s| - 1;
      RemoveDistinct(s[..n], k);
      RemoveKeeps(s[..n], k, s[n]);
      assert s == s[..n] + [s[n]];
      assert s[n] !in s[..n];
      if s[n] == k { RemoveAbsent(s[..n], k); }
    }
  }

  /** Distinct keys, exactly those of the history. */
  lemma {:induction false} LastUseKeys<K>(s: seq<K>)
    ensures Distinct(ByLastUse(s))
    ensures forall x :: x in ByLastUse(s) <==> x in s
  {
    if s != [] {
      var n := |s| - 1;
      LastUseKeys(s[..n]);
      RemoveDistinct(ByLastUse(s[..n]), s[n]);
      assert s == s[..n] + [s[n]];
      forall x ensures x in ByLastUse(s) <==> x in s { RemoveKeeps(ByLastUse(s[..n]), s[n], x); }
      RemoveKeeps(ByLastUse(s[..n]), s[n], s[n]);
    }
  }

  function LastIndex<K(==)>(s: seq<K>, x: K): (i: nat)
    requires x in s
    ensures i < |s| && s[i] == x && forall j | i < j < |s| :: s[j] != x
  {
    if s[|s| - 1] == x then |s| - 1
    else
      assert s == s[..|s| - 1] + [s[|s| - 1]];
      LastIndex(s[..|s| - 1], x)
  }

  lemma {:induction false} RemoveOrder<K>(s: seq<K>, k: K, i: nat, j: nat)
    requires i < j < |Remove(s, k)|
    ensures exists a, b :: 0 <= a < b < |s| && s[a] == Remove(s, k)[i] && s[b] == Remove(s, k)[j]
  {
    var n := |s| - 1;
    var before := Remove(s[..n], k);
    if j < |before| {
      RemoveOrder(s[..n], k, i, j);
      var a, b :| 0 <= a < b < n && s[..n][a] == before[i] && s[..n][b] == before[j];
      assert s[a] == Remove(s, k)[i] && s[b] == Remove(s, k)[j];
    } else {
      RemoveKeeps(s[..n], k, before[i]);
      var a :| 0 <= a < n && s[..n][a] == before[i];
      assert s[a] == Remove(s, k)[i] && s[n] == Remove(s, k)[j];
    }
  }

  /** Earlier in the order means used less recently. */
  lemma {:induction false} LastUseOrder<K>(s: seq<K>, i: nat, j: nat)
    requires i < j < |ByLastUse(s)|
    ensures ByLastUse(s)[i] in s && ByLastUse(s)[j] in s
    ensures LastIndex(s, ByLastUse(s)[i]) < LastIndex(s, ByLastUse(s)[j])
  {
    LastUseKeys(s);
    var n := |s| - 1;
    var before := ByLastUse(s[..n]);
    var x, y := ByLastUse(s)[i], ByLastUse(s)[j];
    assert x in ByLastUse(s) && y in ByLastUse(s);
    hide ByLastUse;
    if j < |Remove(before, s[n])| {
      RemoveOrder(before, s[n], i, j);
      var a, b :| 0 <= a < b < |before| && before[a] == x && before[b] == y;
      LastUseOrder(s[..n], a, b);
      RemoveKeeps(before, s[n], x);
      RemoveKeeps(before, s[n], y);
    } else {
      RemoveKeeps(before, s[n], x);
    }
  }

  lemma NewestOfTail<K>(a: seq<K>, b: seq<K>, n: nat)
    requires n <= |b| || a == []
    ensures Newest(a + b, n) == Newest(b, n)
  {
    if a == [] { assert a + b == b; }
  }

  lemma NewestSplits<K>(s: seq<K>, n: nat)
    ensures var b := Newest(s, n); var a := s[..|s| - |b|];
      s == a + b && (|b| == n || a == []) && (Distinct(s) ==> Distinct(b) && forall x | x in b :: x !in a)
  {
    var b := Newest(s, n);
    var a := s[..|s| - |b|];
    assert s == a + b;
    if Distinct(s) {
      forall i, j | 0 <= i < |a| && 0 <= j < |b| ensures a[i] != b[j] {
        assert s[i] == a[i] && s[|a| + j] == b[j];
      }
    }
  }

  lemma UseKept<K>(a: seq<K>, b: seq<K>, max: nat, k: K)
    requires k in b && k !in a && Distinct(b) && (|b| == max || a == [])
    ensures Newest(Remove(b, k) + [k], max) == Newest(Remove(a + b, k) + [k], max)
    ensures |Remove(b, k) + [k]| == |b|
  {
    hide Newest, Remove, Distinct;
    RemoveConcat(a, b, k);
    RemoveDistinct(b, k);
    RemoveAbsent(a, k);
    NewestOfTail(a, Remove(b, k) + [k], max);
    assert a + Remove(b, k) + [k] == a + (Remove(b, k) + [k]);
  }

  lemma UseNew<K>(a: seq<K>, b: seq<K>, max: nat, k: K)
    requires k !in b && (|b| == max || a == [])
    ensures Newest(Remove(b, k) + [k], max) == Newest(Remove(a + b, k) + [k], max)
  {
    hide Newest;
    RemoveConcat(a, b, k);
    RemoveAbsent(b, k);
    NewestOfTail(Remove(a, k), b + [k], max);
    assert Remove(a, k) + b + [k] == Remove(a, k) + (b + [k]);
  }

  /** Using a key, then cutting, is the same on the bounded list as on the whole order. */
  lemma CutAfterUse<K>(stack: seq<K>, max: nat, k: K)
    requires Distinct(stack) && max >= 1
    ensures Newest(Remove(Newest(stack, max), k) + [k], max) == Newest(Remove(stack, k) + [k], max)
    ensures k in Newest(stack, max) ==> |Remove(Newest(stack, max), k) + [k]| == |Newest(stack, max)|
    ensures Distinct(Newest(stack, max))
  {
    hide Newest, Remove, Distinct;
    NewestSplits(stack, max);
    var b := Newest(stack, max);
    var a := stack[..|stack| - |b|];
    if k in b { UseKept(a, b, max, k); } else { UseNew(a, b, max, k); }
  }
}
