/** Constant sequences and sums. */
module Sequences {

  function Copies<T>(x: T, n: nat): (r: seq<T>)
    ensures |r| == n && forall i | 0 <= i < n :: r[i] == x
  {
    seq(n, i => x)
  }

  function SumOf(x: seq<real>): real {
    if x == [] then 0.0 else SumOf(x[..|x| - 1]) + x[|x| - 1]
  }
}
