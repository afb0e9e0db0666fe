/** What a literal reads as, digit by digit, whether or not it has a size and enough digits for it. */
module Reading {
  import opened Basics
  import opened Bits
  import opened Literals
  import opened RoundTrip

  /** A literal with a size, or without one when the size is 0. */
  function Literal(size: nat, fmt: char, digits: string): string {
    (if size == 0 then [] else Decimal(size)) + (['\'', fmt] + digits)
  }

  /** Every character is a digit of the format, in lower case. */
  predicate AreDigits(digits: string, k: nat)
    requires k == 1 || IsWide(k)
  {
    AllDigits(digits, k) && LowerCase(digits)
  }

  /** The place of the lowest bit of digit p, counted from the right. */
  function Place(k: nat, p: nat): nat {
    if k == 1 then p else if k == 3 then 3 * p else 4 * p
  }

  /** What holds of such a text: where its parts are, and its size. */
  predicate HasParts(t: string, fmt: char, digits: string, first: nat, w: nat) {
    && 2 <= first <= |t| && t[first..] == digits && Lowered(t) == t && t[first - 1] == fmt
    && Find(t, fmt, 0) == first - 1 && Find(t, '\'', 0) == first - 2 && Size(t) == w
  }

  lemma UnsizedParts(fmt: char, digits: string)
    requires IsFormat(fmt) && LowerCase(digits)
    ensures HasParts(['\'', fmt] + digits, fmt, digits, 2, MAXBITS)
  {
    var t := ['\'', fmt] + digits;
    assert t[0] == '\'' && t[1] == fmt && t[2..] == digits;
    assert !IsDigit(t[0]);
    assert Digits(t, 0) == 0;
    FindSkips(t, fmt, 0, 1);
    LowerAfter(t, 2, digits);
  }

  lemma LowerAfter(t: string, n: nat, digits: string)
    requires n <= |t| && t[n..] == digits && LowerCase(digits) && forall i :: 0 <= i < n ==> Lower(t[i]) == t[i]
    ensures Lowered(t) == t
  {
    forall i | 0 <= i < |t| ensures Lower(t[i]) == t[i] {
      assert i >= n ==> t[i] == t[n..][i - n] == digits[i - n];
    }
  }

  lemma SizedParts(size: nat, fmt: char, digits: string)
    requires IsFormat(fmt) && LowerCase(digits) && size > 0
    ensures HasParts(Decimal(size) + (['\'', fmt] + digits), fmt, digits, |Decimal(size)| + 2,
                     if size > MAXBITS then MAXBITS else size)
  {
    var t, buf := Decimal(size) + (['\'', fmt] + digits), Reversed(digits, |digits|);
    assert Reversed(buf, |buf|) == digits;
    assert t == Text(size, fmt, buf);
    TextParts(size, fmt, buf);
    assert LowerCase(buf);
    TextIsLower(size, fmt, buf);
  }

  /** The bits of all digits, cut or filled up to the size. */
  lemma PartsFit(t: string, fmt: char, digits: string, first: nat, w: nat)
    requires IsFormat(fmt) && HasParts(t, fmt, digits, first, w)
    ensures Parsed(t) == Fit(Stream(Reversed(digits, |digits|), Step(fmt)), w, Filler(t, first))
  {
    var buf := Reversed(digits, |digits|);
    assert Reversed(buf, |buf|) == digits;
    AllAreRead(t, Step(fmt), first, buf);
  }

  // ---- the bits of the digits ----

  lemma {:induction false} GatheredLong(s: string, bits: char -> Vec, k: nat, m: nat)
    requires (k == 1 || IsWide(k)) && m <= |s| && forall i :: 0 <= i < |s| ==> |bits(s[i])| == k
    ensures |Gathered(s, bits, m)| == Place(k, |s| - m)
    decreases |s| - m
  {
    if m < |s| {
      GatheredLong(s, bits, k, m + 1);
    }
  }

  lemma {:induction false} GatheredPlace(s: string, bits: char -> Vec, k: nat, m: nat, p: nat, j: nat)
    requires (k == 1 || IsWide(k)) && m <= p < |s| && j < k && forall i :: 0 <= i < |s| ==> |bits(s[i])| == k
    ensures Place(k, p - m) + j < |Gathered(s, bits, m)| && Gathered(s, bits, m)[Place(k, p - m) + j] == bits(s[p])[j]
    decreases p - m
  {
    GatheredLong(s, bits, k, m + 1);
    if m < p {
      GatheredPlace(s, bits, k, m + 1, p, j);
      assert Place(k, p - m) == k + Place(k, p - m - 1);
    }
  }

  /** Bit j of digit p, from the right, is where it belongs. */
  predicate ShowsDigit(r: Vec, digits: string, k: nat, p: nat, j: nat)
    requires (k == 1 || IsWide(k)) && p < |digits|
  {
    var c := CharBits(digits[|digits| - 1 - p], k);
    Place(k, p) + j < |r| && j < |c| ==> r[Place(k, p) + j] == c[j]
  }

  /** Everything to the left of the digits is the same. */
  predicate FilledWith(r: Vec, n: nat, b: Bit) {
    forall i :: n <= i < |r| ==> r[i] == b
  }

  lemma FitShowsDigits(digits: string, k: nat, w: nat, b: Bit)
    requires (k == 1 || IsWide(k)) && AllDigits(digits, k)
    ensures var r := Fit(Stream(Reversed(digits, |digits|), k), w, b);
      && (forall p: nat, j: nat :: p < |digits| && j < k ==> ShowsDigit(r, digits, k, p, j))
      && FilledWith(r, Place(k, |digits|), b)
  {
    var buf := Reversed(digits, |digits|);
    var v := Gathered(buf, BitsOf(k), 0);
    forall i | 0 <= i < |buf| ensures |BitsOf(k)(buf[i])| == k {
      assert buf[i] == digits[|digits| - 1 - i];
    }
    GatheredLong(buf, BitsOf(k), k, 0);
    forall p: nat, j: nat | p < |digits| && j < k ensures ShowsDigit(Fit(v, w, b), digits, k, p, j) {
      GatheredPlace(buf, BitsOf(k), k, 0, p, j);
      assert buf[p] == digits[|digits| - 1 - p];
    }
  }

  /** What the missing bits on the left are taken for. */
  function Leading(digits: string): Bit {
    if digits == [] then L else if digits[0] == 'x' then X else if digits[0] == 'z' || digits[0] == '?' then Z else L
  }

  /** A literal without a size, or with one that is too large, has 32 bits. Its bits are those of its
      digits, from the right; what is missing on the left is x after a leading x, z after a leading z
      or ?, and 0 otherwise. */
  lemma LiteralReadsAs(size: nat, fmt: char, digits: string)
    requires IsFormat(fmt) && AreDigits(digits, Step(fmt))
    ensures var k, r := Step(fmt), Parsed(Literal(size, fmt, digits));
      && |r| == (if size == 0 || size > 32 then 32 else size)
      && (forall p: nat, j: nat :: p < |digits| && j < k ==> ShowsDigit(r, digits, k, p, j))
      && FilledWith(r, Place(k, |digits|), Leading(digits))
  {
    var t, w := Literal(size, fmt, digits), if size == 0 || size > MAXBITS then MAXBITS else size;
    var first := if size == 0 then 2 else |Decimal(size)| + 2;
    if size == 0 {
      assert t == ['\'', fmt] + digits;
      UnsizedParts(fmt, digits);
    } else {
      SizedParts(size, fmt, digits);
    }
    PartsFit(t, fmt, digits, first, w);
    FillerIs(t, first, digits);
    FitShowsDigits(digits, Step(fmt), w, Leading(digits));
  }

  lemma FillerIs(t: string, first: nat, digits: string)
    requires first <= |t| && t[first..] == digits
    ensures Filler(t, first) == Leading(digits)
  {
    assert digits != [] ==> t[first] == t[first..][0] == digits[0];
  }

  /** In binary, capital letters and question marks stand for unknown bits too, and underscores and
      spaces for nothing. */
  lemma CharactersAre(k: nat)
    requires k == 1 || IsWide(k)
    ensures CharBits('x', k) == Repeat(X, k) && CharBits('z', k) == CharBits('?', k) == Repeat(Z, k)
    ensures CharBits('0', k) == Repeat(L, k) && CharBits('1', k) == [H] + Repeat(L, k - 1)
    ensures k == 1 ==> CharBits('X', k) == [X] && CharBits('Z', k) == [Z] && CharBits('2', k) == []
    ensures k == 3 ==> CharBits('7', k) == [H, H, H] && CharBits('6', k) == [L, H, H] && CharBits('8', k) == []
    ensures k == 4 ==> CharBits('9', k) == [H, L, L, H] && CharBits('a', k) == [L, H, L, H] && CharBits('f', k) == [H, H, H, H]
    ensures CharBits('_', k) == CharBits(' ', k) == []
  {
  }

  /** A space or an underscore may stand anywhere among the digits. */
  lemma {:induction false} SeparatorsAreSkipped(p: string, c: char, q: string, k: nat, first: nat, n: nat)
    requires (k == 1 || IsWide(k)) && (c == '_' || c == ' ') && first <= |p| && n <= |q|
    ensures AllBits(p + [c] + q, k, first, |p| + 1 + n) == AllBits(p + q, k, first, |p| + n)
  {
    var s, t := p + [c] + q, p + q;
    if n > 0 {
      SeparatorsAreSkipped(p, c, q, k, first, n - 1);
      assert s[|p| + n] == q[n - 1] == t[|p| + n - 1];
    } else {
      assert s[|p|] == c;
      SamePrefix(s, t, k, first, |p|);
      assert [] + AllBits(s, k, first, |p|) == AllBits(s, k, first, |p|);
    }
  }

  lemma {:induction false} SamePrefix(s: string, t: string, k: nat, first: nat, e: nat)
    requires (k == 1 || IsWide(k)) && e <= |s| && e <= |t| && forall i :: 0 <= i < e ==> s[i] == t[i]
    ensures AllBits(s, k, first, e) == AllBits(t, k, first, e)
  {
    if e > first {
      SamePrefix(s, t, k, first, e - 1);
    }
  }

  // ---- what is printed ----

  function BitChar(b: Bit): char {
    if b == L then '0' else if b == H then '1' else if b == X then 'x' else 'z'
  }

  /** In binary every bit is printed, the highest first. */
  lemma BinaryText(bits: Vec, d: Display) returns (digits: string)
    requires bits != [] && (d == AsBin || (|bits| == 1 && d != AsOther))
    ensures Printed(bits, d) == Literal(|bits|, 'b', digits) && |digits| == |bits|
    ensures forall i :: 0 <= i < |digits| ==> digits[i] == BitChar(bits[|bits| - 1 - i])
  {
    digits := Reversed(BinChars(bits, |bits|), |bits|);
  }

  /** Group g of four bits, with missing ones low, is this digit. */
  predicate IsHexDigit(bits: Vec, g: nat, c: char) {
    var b0, b1, b2, b3 := At(bits, 4 * g), At(bits, 4 * g + 1), At(bits, 4 * g + 2), At(bits, 4 * g + 3);
    if b0 == b1 == b2 == b3 == X then c == 'x'
    else if b0 == b1 == b2 == b3 == Z then c == 'z'
    else Known(b0) && Known(b1) && Known(b2) && Known(b3) &&
         c == "0123456789abcdef"[(if b0 == H then 1 else 0) + (if b1 == H then 2 else 0)
                                 + (if b2 == H then 4 else 0) + (if b3 == H then 8 else 0)]
  }

  predicate HasHexDigit(bits: Vec, g: nat) {
    var b0, b1, b2, b3 := At(bits, 4 * g), At(bits, 4 * g + 1), At(bits, 4 * g + 2), At(bits, 4 * g + 3);
    || b0 == b1 == b2 == b3
    || (Known(b0) && Known(b1) && Known(b2) && Known(b3))
  }

  lemma HexDigitIs(bits: Vec, g: nat)
    ensures HasHexDigit(bits, g) <==> !Mixed(bits, 4, g)
    ensures HasHexDigit(bits, g) ==> |GroupChars(bits, 4, g)| == 1 && IsHexDigit(bits, g, GroupChars(bits, 4, g)[0])
  {
    var t := Group(bits, 4, g);
    assert Pow2(0) == 1 && Pow2(1) == 2 && Pow2(2) == 4 && Pow2(3) == 8;
    assert t[0] == GroupBit(bits, 4, g, 0) && t[1] == GroupBit(bits, 4, g, 1);
    assert t[2] == GroupBit(bits, 4, g, 2) && t[3] == GroupBit(bits, 4, g, 3);
    GroupFacts(bits, 4, g);
    assert ValueTo(t, 1) == if t[0] == H then 1 else 0;
    assert ValueTo(t, 2) == ValueTo(t, 1) + if t[1] == H then 2 else 0;
    assert ValueTo(t, 3) == ValueTo(t, 2) + if t[2] == H then 4 else 0;
  }

  lemma {:induction false} HexDigitsAre(bits: Vec, n: nat)
    requires forall g :: 0 <= g < n ==> HasHexDigit(bits, g)
    ensures var s := GroupsChars(bits, 4, n); |s| == n && forall g :: 0 <= g < n ==> IsHexDigit(bits, g, s[g])
  {
    if n > 0 {
      HexDigitsAre(bits, n - 1);
      HexDigitIs(bits, n - 1);
    }
  }

  predicate HasHexDigits(bits: Vec) {
    forall g :: 0 <= g < (|bits| + 3) / 4 ==> HasHexDigit(bits, g)
  }

  lemma GroupedIs(bits: Vec)
    ensures HasHexDigits(bits) <==> Grouped(bits, 4, Groups(|bits|, 4))
  {
    forall g | 0 <= g < Groups(|bits|, 4) ensures HasHexDigit(bits, g) <==> !Mixed(bits, 4, g) {
      HexDigitIs(bits, g);
    }
  }

  /** In hexadecimal a digit is printed for every four bits, as long as every group has one; if one has
      not, the vector is printed in binary. */
  lemma HexText(bits: Vec) returns (digits: string)
    requires |bits| > 1
    ensures !HasHexDigits(bits) ==> Printed(bits, AsHex) == Printed(bits, AsBin)
    ensures HasHexDigits(bits) ==>
      && Printed(bits, AsHex) == Literal(|bits|, 'h', digits) && |digits| == (|bits| + 3) / 4
      && forall i :: 0 <= i < |digits| ==> IsHexDigit(bits, |digits| - 1 - i, digits[i])
  {
    var n := Groups(|bits|, 4);
    GroupedIs(bits);
    digits := "";
    if HasHexDigits(bits) {
      HexDigitsAre(bits, n);
      digits := ReversedDigits(bits, n);
    }
  }

  lemma ReversedDigits(bits: Vec, n: nat) returns (digits: string)
    requires var s := GroupsChars(bits, 4, n); |s| == n && forall g :: 0 <= g < n ==> IsHexDigit(bits, g, s[g])
    ensures digits == Reversed(GroupsChars(bits, 4, n), n) && |digits| == n
    ensures forall i :: 0 <= i < n ==> IsHexDigit(bits, n - 1 - i, digits[i])
  {
    digits := Reversed(GroupsChars(bits, 4, n), n);
  }
}
