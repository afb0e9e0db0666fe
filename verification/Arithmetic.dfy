/** Addition and subtraction of vectors, ripple-carry, with unknown bits. */
module Arithmetic {
  import opened Bits

  function Val1(b: Bit): (r: nat)
    ensures r <= 1
  {
    if b == H then 1 else 0
  }

  /** The number that the lowest n bits of a vector stand for; unknown bits count as 0. */
  function ValTo(v: Vec, n: nat): nat {
    if n == 0 then 0 else ValTo(v, n - 1) + if At(v, n - 1) == H then Pow2(n - 1) else 0
  }

  function Val(v: Vec): nat {
    ValTo(v, |v|)
  }

  // ---- the sum, place by place ----

  /** The carry into place i. */
  function CarryAt(a: Vec, b: Vec, carry: nat, i: nat): (c: nat)
    requires carry <= 1
    ensures c <= 1
  {
    if i == 0 then carry
    else (Val1(At(a, i - 1)) + Val1(At(b, i - 1)) + CarryAt(a, b, carry, i - 1)) / 2
  }

  predicate KnownTo(a: Vec, b: Vec, n: nat) {
    forall j :: 0 <= j < n ==> Known(At(a, j)) && Known(At(b, j))
  }

  /** The sum bit at place i: unknown as soon as an operand bit there or below is. */
  function SumBit(a: Vec, b: Vec, carry: nat, i: nat): Bit
    requires carry <= 1
  {
    if !KnownTo(a, b, i + 1) then X
    else FromBool((Val1(At(a, i)) + Val1(At(b, i)) + CarryAt(a, b, carry, i)) % 2 == 1)
  }

  function Sum(a: Vec, b: Vec, carry: nat, w: nat): (r: Vec)
    requires carry <= 1
    ensures |r| == w && forall i :: 0 <= i < w ==> r[i] == SumBit(a, b, carry, i)
  {
    seq(w, i requires 0 <= i => SumBit(a, b, carry, i))
  }

  /** One operand bit. Beyond the operand's end the carry stands in for it, and is cleared. */
  method Digit(s: Vec, i: nat, carry: nat) returns (d: nat, carry': nat, unknown: bool)
    requires carry <= 1
    ensures d <= 1 && carry' <= 1 && d + carry' == Val1(At(s, i)) + carry
    ensures unknown <==> !Known(At(s, i))
  {
    d, carry', unknown := 0, carry, false;
    if i >= |s| {
      if carry == 1 {
        d, carry' := 1, 0;
      }
    } else {
      d, unknown := Val1(s[i]), !Known(s[i]);
    }
  }

  /** The addition loop. */
  method AddBits(s0: array<Bit>, s1: Vec, s2: Vec, setc: bool)
    modifies s0
    ensures s0[..] == Sum(s1, s2, if setc then 1 else 0, s0.Length)
  {
    var carry: nat := if setc then 1 else 0;
    ghost var c0 := carry;
    var i := 0;
    while i < s0.Length
      invariant 0 <= i <= s0.Length && carry == CarryAt(s1, s2, c0, i) && KnownTo(s1, s2, i)
      invariant forall j :: 0 <= j < i ==> s0[j] == SumBit(s1, s2, c0, j)
    {
      var a, xa, b, xb;
      a, carry, xa := Digit(s1, i, carry);
      b, carry, xb := Digit(s2, i, carry);
      if xa || xb {
        forall j | i <= j < s0.Length {
          s0[j] := X;
        }
        return;
      }
      var c := a + b + carry;
      s0[i] := if c % 2 == 1 then H else L;
      carry := if c >= 2 then 1 else 0;
      i := i + 1;
    }
  }

  /** The sum of two vectors: one bit more than the wider one, unless that bit is not high. */
  method AddB(d1: Vec, d2: Vec) returns (r: Vec)
    ensures r == Added(d1, d2)
  {
    var size := Max(|d1|, |d2|) + 1;
    var s := new Bit[size](_ => X);
    AddBits(s, d1, d2, false);
    if s[size - 1] != H {
      size := size - 1;
    }
    r := s[..size];
  }

  function FullSum(d1: Vec, d2: Vec): Vec {
    Sum(d1, d2, 0, Max(|d1|, |d2|) + 1)
  }

  function Added(d1: Vec, d2: Vec): Vec {
    var s := FullSum(d1, d2);
    if s[|s| - 1] != H then s[..|s| - 1] else s
  }

  function Inverted(v: Vec): (r: Vec)
    ensures |r| == |v|
    ensures forall i :: 0 <= i < |v| ==> r[i] == if v[i] == L then H else if v[i] == H then L else v[i]
  {
    seq(|v|, i requires 0 <= i < |v| => if v[i] == L then H else if v[i] == H then L else v[i])
  }

  /** The difference: the second operand is inverted in its own width, and the carry is set. */
  method SubB(d1: Vec, d2: Vec) returns (r: Vec)
    ensures r == Subtracted(d1, d2)
  {
    var s := new Bit[Max(|d1|, |d2|)](_ => X);
    var s2 := new Bit[|d2|](_ => X);
    var i := 0;
    while i < |d2|
      invariant 0 <= i <= |d2|
      invariant forall j :: 0 <= j < i ==> s2[j] == Inverted(d2)[j]
    {
      s2[i] := d2[i];
      if s2[i] == L {
        s2[i] := H;
      } else if s2[i] == H {
        s2[i] := L;
      }
      i := i + 1;
    }
    assert s2[..] == Inverted(d2);
    AddBits(s, d1, s2[..], true);
    r := s[..];
  }

  function Subtracted(d1: Vec, d2: Vec): Vec {
    Sum(d1, Inverted(d2), 1, Max(|d1|, |d2|))
  }

  // ---- numbers ----

  lemma {:induction false} ValBeyond(v: Vec, n: nat)
    requires |v| <= n
    ensures ValTo(v, n) == Val(v)
    decreases n
  {
    if n > |v| {
      ValBeyond(v, n - 1);
    }
  }

  lemma {:induction false} ValBound(v: Vec, n: nat)
    ensures ValTo(v, n) < Pow2(n)
  {
    if n > 0 {
      ValBound(v, n - 1);
    }
  }

  lemma {:induction false} Pow2Mono(a: nat, b: nat)
    requires a <= b
    ensures Pow2(a) <= Pow2(b)
    ensures a < b ==> 2 * Pow2(a) <= Pow2(b)
    decreases b - a
  {
    if a < b {
      Pow2Mono(a, b - 1);
    }
  }

  lemma {:induction false} ValSame(v: Vec, w: Vec, n: nat)
    requires forall i :: 0 <= i < n ==> At(v, i) == At(w, i)
    ensures ValTo(v, n) == ValTo(w, n)
  {
    if n > 0 {
      ValSame(v, w, n - 1);
    }
  }

  /** A number has one representation in n bits. */
  lemma {:induction false} ValUnique(v: Vec, w: Vec, n: nat)
    requires n <= |v| && n <= |w| && AllKnown(v) && AllKnown(w) && ValTo(v, n) == ValTo(w, n)
    ensures forall i :: 0 <= i < n ==> v[i] == w[i]
    decreases n
  {
    if n > 0 {
      ValBound(v, n - 1);
      ValBound(w, n - 1);
      assert Known(v[n - 1]) && Known(w[n - 1]);
      ValUnique(v, w, n - 1);
    }
  }

  // ---- exactness ----

  /** Up to every place, the sum bits and the carry make up the sum of the operands so far. */
  lemma {:induction false} SumIsExact(a: Vec, b: Vec, carry: nat, w: nat, n: nat)
    requires carry <= 1 && KnownTo(a, b, w) && n <= w
    ensures ValTo(Sum(a, b, carry, w), n) + (if CarryAt(a, b, carry, n) == 1 then Pow2(n) else 0)
         == ValTo(a, n) + ValTo(b, n) + carry
    decreases n
  {
    if n > 0 {
      SumIsExact(a, b, carry, w, n - 1);
      assert KnownTo(a, b, n);
      assert At(Sum(a, b, carry, w), n - 1) == SumBit(a, b, carry, n - 1);
    }
  }

  lemma KnownOperands(a: Vec, b: Vec, w: nat)
    requires AllKnown(a) && AllKnown(b)
    ensures KnownTo(a, b, w)
  {
  }

  lemma SumKnown(a: Vec, b: Vec, carry: nat, w: nat)
    requires carry <= 1 && AllKnown(a) && AllKnown(b)
    ensures AllKnown(Sum(a, b, carry, w))
  {
    forall i | 0 <= i < w ensures Known(Sum(a, b, carry, w)[i]) {
      KnownOperands(a, b, i + 1);
    }
  }

  lemma FullSumIsExact(a: Vec, b: Vec)
    requires AllKnown(a) && AllKnown(b)
    ensures AllKnown(FullSum(a, b)) && Val(FullSum(a, b)) == Val(a) + Val(b)
  {
    var n := Max(|a|, |b|);
    KnownOperands(a, b, n + 1);
    SumKnown(a, b, 0, n + 1);
    SumIsExact(a, b, 0, n + 1, n + 1);
    ValBeyond(a, n + 1);
    ValBeyond(b, n + 1);
    ValBound(a, |a|);
    ValBound(b, |b|);
    Pow2Mono(|a|, n);
    Pow2Mono(|b|, n);
  }

  /** For operands without unknown bits, of any two widths, the sum is the true sum: the bit that
      is dropped when it is not high never mattered. */
  lemma AddIsExact(a: Vec, b: Vec)
    requires AllKnown(a) && AllKnown(b)
    ensures AllKnown(Added(a, b)) && Val(Added(a, b)) == Val(a) + Val(b)
  {
    FullSumIsExact(a, b);
    var s, r := FullSum(a, b), Added(a, b);
    assert AllKnown(r) by {
      assert forall i :: 0 <= i < |r| ==> r[i] == s[i];
    }
    if |r| < |s| {
      ValSame(r, s, |r|);
    }
  }

  // ---- unknown bits ----

  /** Below the lowest unknown operand bit, the sum of two vectors of any widths has the bits of the
      true sum, whatever the unknown bits stand for; from there on it has none. */
  lemma AddIsSound(a: Vec, b: Vec, a': Vec, b': Vec, exact: Vec, k: nat)
    requires FillsVec(a, a') && FillsVec(b, b') && AllKnown(a') && AllKnown(b')
    requires KnownTo(a, b, k) && !KnownTo(a, b, k + 1)
    requires |exact| == Max(|a|, |b|) + 1 && AllKnown(exact) && Val(exact) == Val(a') + Val(b')
    ensures var r := Added(a, b);
            && k < |r| == Max(|a|, |b|)
            && (forall i :: 0 <= i < k ==> r[i] == exact[i])
            && (forall i :: k <= i < |r| ==> r[i] == X)
  {
    var n := Max(|a|, |b|);
    FullSumIsExact(a', b');
    ValUnique(FullSum(a', b'), exact, n + 1);
    assert !Known(At(a, k)) || !Known(At(b, k));
    forall i | k <= i <= n ensures FullSum(a, b)[i] == X {
      assert !KnownTo(a, b, i + 1);
    }
    forall i | 0 <= i < k ensures FullSum(a, b)[i] == FullSum(a', b')[i] {
      FilledBit(a, b, a', b', 0, i);
    }
  }

  lemma FilledBit(a: Vec, b: Vec, a': Vec, b': Vec, carry: nat, i: nat)
    requires carry <= 1 && FillsVec(a, a') && FillsVec(b, b') && KnownTo(a, b, i + 1)
    ensures SumBit(a, b, carry, i) == SumBit(a', b', carry, i)
  {
    assert forall j :: 0 <= j <= i ==> At(a', j) == At(a, j) && At(b', j) == At(b, j) && Known(At(a, j));
    SameCarry(a, b, a', b', carry, i);
  }

  lemma {:induction false} SameCarry(a: Vec, b: Vec, a': Vec, b': Vec, carry: nat, i: nat)
    requires carry <= 1 && forall j :: 0 <= j < i ==> At(a', j) == At(a, j) && At(b', j) == At(b, j)
    ensures CarryAt(a, b, carry, i) == CarryAt(a', b', carry, i)
  {
    if i > 0 {
      SameCarry(a, b, a', b', carry, i - 1);
    }
  }

  // ---- subtraction ----

  lemma {:induction false} InvertedVal(v: Vec, n: nat)
    requires AllKnown(v) && n <= |v|
    ensures ValTo(Inverted(v), n) + ValTo(v, n) == Pow2(n) - 1
    decreases n
  {
    if n > 0 {
      InvertedVal(v, n - 1);
      assert Known(v[n - 1]);
    }
  }

  /** Difference and borrow together. */
  lemma SubtractSum(a: Vec, b: Vec) returns (out: nat)
    requires AllKnown(a) && AllKnown(b)
    ensures var w := Max(|a|, |b|);
            && out <= 1 && AllKnown(Subtracted(a, b)) && Val(Subtracted(a, b)) < Pow2(w)
            && Val(Subtracted(a, b)) + (if out == 1 then Pow2(w) else 0) == Val(a) + Pow2(|b|) - Val(b)
  {
    var w, c := Max(|a|, |b|), Inverted(b);
    assert AllKnown(c) by {
      assert forall i :: 0 <= i < |b| ==> Known(b[i]);
    }
    InvertedVal(b, |b|);
    KnownOperands(a, c, w);
    SumKnown(a, c, 1, w);
    SumIsExact(a, c, 1, w, w);
    ValBeyond(a, w);
    ValBeyond(c, w);
    ValBound(Subtracted(a, b), w);
    out := CarryAt(a, c, 1, w);
  }

  /** The difference of operands without unknown bits is a + 2^w2 - b, where w2 is the width of b
      alone, in as many bits as the wider operand has. */
  lemma SubtractIs(a: Vec, b: Vec)
    requires AllKnown(a) && AllKnown(b)
    ensures var w := Max(|a|, |b|);
            && AllKnown(Subtracted(a, b)) && |Subtracted(a, b)| == w
            && Val(Subtracted(a, b)) == (Val(a) + Pow2(|b|) - Val(b)) % Pow2(w)
  {
    var out := SubtractSum(a, b);
    ModOnce(Val(a) + Pow2(|b|) - Val(b), Pow2(Max(|a|, |b|)), out, Val(Subtracted(a, b)));
  }

  /** Below the lowest unknown operand bit the difference has the bits it has for every filling, which
      are those of a + 2^w2 - b; from there on it has none. */
  lemma SubtractIsSound(a: Vec, b: Vec, a': Vec, b': Vec, k: nat)
    requires FillsVec(a, a') && FillsVec(b, b') && AllKnown(a') && AllKnown(b')
    requires KnownTo(a, b, k) && !KnownTo(a, b, k + 1)
    ensures var r, w := Subtracted(a, b), Max(|a|, |b|);
            && k < |r| == w && AllKnown(Subtracted(a', b'))
            && Val(Subtracted(a', b')) == (Val(a') + Pow2(|b|) - Val(b')) % Pow2(w)
            && (forall i :: 0 <= i < k ==> r[i] == Subtracted(a', b')[i])
            && (forall i :: k <= i < w ==> r[i] == X)
  {
    var c, c', w := Inverted(b), Inverted(b'), Max(|a|, |b|);
    SubtractIs(a', b');
    InvertedAt(b, b');
    assert forall j: nat :: Known(At(c, j)) <==> Known(At(b, j));
    assert !Known(At(a, k)) || !Known(At(b, k));
    forall i | k <= i < w ensures Subtracted(a, b)[i] == X {
      assert !KnownTo(a, c, i + 1);
    }
    forall i | 0 <= i < k ensures Subtracted(a, b)[i] == Subtracted(a', b')[i] {
      assert KnownTo(a, c, i + 1);
      FilledBit(a, c, a', c', 1, i);
    }
  }

  lemma InvertedAt(b: Vec, b': Vec)
    requires FillsVec(b, b') && AllKnown(b')
    ensures FillsVec(Inverted(b), Inverted(b'))
    ensures forall j: nat :: j < |b| ==> (Known(At(Inverted(b), j)) <==> Known(At(b, j)))
  {
  }

  lemma ModOnce(n: int, m: nat, out: nat, r: nat)
    requires r < m && out <= 1 && n == r + if out == 1 then m else 0
    ensures n % m == r
  {
    ModUnique(n, m, out, r);
  }

  /** The difference is right, modulo the width of the result, exactly when the second operand is
      at least as wide as the first. A narrower one is not extended before it is inverted. */
  lemma SubtractIsExactWhen(a: Vec, b: Vec)
    requires AllKnown(a) && AllKnown(b)
    ensures Val(Subtracted(a, b)) == (Val(a) - Val(b)) % Pow2(Max(|a|, |b|)) <==> |a| <= |b|
  {
    var m, d, x := Pow2(Max(|a|, |b|)), Pow2(|b|), Val(a) - Val(b);
    SubtractIs(a, b);
    if |a| <= |b| {
      ModShift(x, m);
    } else {
      Pow2Mono(|b|, |a|);
      ModDiffer(x, d, m);
    }
  }

  lemma MulBound(p: int, m: int)
    requires m >= 0
    ensures p >= 1 ==> p * m >= m
    ensures p <= -1 ==> p * m <= -m
  {
    if p >= 1 {
      assert (p - 1) * m >= 0;
    } else if p <= -1 {
      assert (-1 - p) * m >= 0;
    }
  }

  lemma ModUnique(n: int, m: nat, q: int, r: nat)
    requires r < m && n == q * m + r
    ensures n % m == r
  {
    var p := n / m - q;
    MulBound(p, m);
    assert p * m == (n / m) * m - q * m;
  }

  lemma ModShift(x: int, m: nat)
    requires m > 0
    ensures (x + m) % m == x % m
  {
    assert x + m == (x / m + 1) * m + x % m;
    ModUnique(x + m, m, x / m + 1, x % m);
  }

  lemma ModDiffer(x: int, d: nat, m: nat)
    requires 0 < d < m
    ensures (x + d) % m != x % m
  {
    var q, r := x / m, x % m;
    if r + d < m {
      assert x + d == q * m + (r + d);
      ModUnique(x + d, m, q, r + d);
    } else {
      assert x + d == (q + 1) * m + (r + d - m);
      ModUnique(x + d, m, q + 1, r + d - m);
    }
  }

  /** Four bits of five, minus a single bit of one, is six. */
  lemma FiveMinusOne()
    ensures var a, b := [H, L, H, L], [H];
            Val(a) == 5 && Val(b) == 1 && Val(Subtracted(a, b)) == 6
  {
    var a, b := [H, L, H, L], [H];
    assert Pow2(1) == 2 && Pow2(2) == 4 && Pow2(3) == 8 && Pow2(4) == 16;
    assert ValTo(a, 2) == 1 && ValTo(a, 4) == 5 && ValTo(b, 1) == 1;
    SubtractIs(a, b);
  }
}
