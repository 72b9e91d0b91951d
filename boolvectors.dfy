/** Boolean vectors, one entry per vertex, standing for numpy bool arrays. */
module BoolVectors {

  /** numpy.full(n, b). */
  function Full(n: nat, b: bool): (r: seq<bool>)
    ensures |r| == n && forall i :: 0 <= i < n ==> r[i] == b
  {
    seq(n, _ => b)
  }

  /** numpy's ~ on a bool array: elementwise negation. */
  function Not(s: seq<bool>): (r: seq<bool>)
    ensures |r| == |s| && forall i :: 0 <= i < |s| ==> r[i] == !s[i]
  {
    seq(|s|, i requires 0 <= i < |s| => !s[i])
  }

  /** The result of an invert flag applied to a raw vector. */
  function Inverted(s: seq<bool>, invert: bool): (r: seq<bool>)
    ensures |r| == |s| && forall i :: 0 <= i < |s| ==> r[i] == (s[i] != invert)
  {
    if invert then Not(s) else s
  }
}
