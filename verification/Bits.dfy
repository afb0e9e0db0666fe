/** The four bit values and the operators on them, with vectors least significant bit first. */
module Bits {

  /** Low, high, unknown, and high impedance. */
  datatype Bit = L | H | X | Z

  type Vec = seq<Bit>

  predicate Known(b: Bit) {
    b.L? || b.H?
  }

  function OpAnd(a: Bit, b: Bit): Bit {
    if a == H && b == H then H else if a == L || b == L then L else X
  }

  function OpOr(a: Bit, b: Bit): Bit {
    if a == H || b == H then H else if a == L && b == L then L else X
  }

  function OpXor(a: Bit, b: Bit): Bit {
    if (a == H && b == L) || (a == L && b == H) then H
    else if (a == H && b == H) || (a == L && b == L) then L
    else X
  }

  function OpNot(a: Bit): Bit {
    if a == X || a == Z then X else if a == H then L else H
  }

  /** A vector reads as low beyond its end. */
  function At(v: Vec, i: nat): Bit {
    if i < |v| then v[i] else L
  }

  function Max(a: nat, b: nat): nat {
    if a < b then b else a
  }

  predicate AllKnown(v: Vec) {
    forall i :: 0 <= i < |v| ==> Known(v[i])
  }

  /** b says no more than c: wherever b is 0 or 1, so is c, with the same value. */
  predicate Fills(b: Bit, c: Bit) {
    Known(b) ==> c == b
  }

  predicate FillsVec(v: Vec, w: Vec) {
    |v| == |w| && forall i :: 0 <= i < |v| ==> Fills(v[i], w[i])
  }

  function FromBool(b: bool): Bit {
    if b then H else L
  }

  function FromBools(v: seq<bool>): (r: Vec)
    ensures |r| == |v| && AllKnown(r) && forall i :: 0 <= i < |v| ==> r[i] == FromBool(v[i])
  {
    seq(|v|, i requires 0 <= i < |v| => FromBool(v[i]))
  }

  function Pow2(n: nat): (r: nat)
    ensures r > 0
  {
    if n == 0 then 1 else 2 * Pow2(n - 1)
  }
}
