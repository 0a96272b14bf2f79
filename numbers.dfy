/** Arithmetic helpers shared by the analysis and the momentum panel. */
module Numbers {

  /** `Math.abs` on exact reals. */
  function Abs(x: real): (r: real)
    ensures r >= 0.0
    ensures r == x || r == -x
  {
    if x < 0.0 then -x else x
  }

  /** The smaller of two counts. */
  function Min(a: nat, b: nat): (r: nat)
    ensures r <= a && r <= b
    ensures r == a || r == b
  {
    if a <= b then a else b
  }
}
