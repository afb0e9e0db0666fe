/** Reading back what is printed gives the same bits: always in binary and hexadecimal, and in
    octal exactly when nothing but zeros lies above the lowest unknown digit. */
module RoundTrip {
  import opened Basics
  import opened Bits
  import opened Literals

  /** The bits of a buffer of digits from place m on, least significant digit first. */
  function StreamFrom(s: string, k: nat, m: nat): Vec
    requires k == 1 || IsWide(k)
  {
    Gathered(s, BitsOf(k), m)
  }

  function BitsOf(k: nat): char -> Vec
    requires k == 1 || IsWide(k)
  {
    (c: char) => CharBits(c, k)
  }

  function Gathered(s: string, bits: char -> Vec, m: nat): Vec
    decreases |s| - m
  {
    if m >= |s| then [] else bits(s[m]) + Gathered(s, bits, m + 1)
  }

  function Stream(s: string, k: nat): Vec
    requires k == 1 || IsWide(k)
  {
    StreamFrom(s, k, 0)
  }

  lemma {:induction false} GatheredTail(p: string, q: string, bits: char -> Vec, m: nat)
    ensures Gathered(p + q, bits, |p| + m) == Gathered(q, bits, m)
    decreases |q| - m
  {
    if m < |q| {
      assert (p + q)[|p| + m] == q[m];
      GatheredTail(p, q, bits, m + 1);
    }
  }

  lemma {:induction false} GatheredHead(p: string, q: string, bits: char -> Vec, m: nat)
    requires m <= |p|
    ensures Gathered(p + q, bits, m) == Gathered(p, bits, m) + Gathered(q, bits, 0)
    decreases |p| - m
  {
    if m < |p| {
      assert (p + q)[m] == p[m];
      GatheredHead(p, q, bits, m + 1);
      Assoc(bits(p[m]), Gathered(p, bits, m + 1), Gathered(q, bits, 0));
    } else {
      GatheredTail(p, q, bits, 0);
    }
  }

  lemma StreamConcat(p: string, q: string, k: nat)
    requires k == 1 || IsWide(k)
    ensures Stream(p + q, k) == Stream(p, k) + Stream(q, k)
  {
    GatheredHead(p, q, BitsOf(k), 0);
  }

  // ---- the text around the digits ----

  lemma {:induction false} FindSkips(s: string, letter: char, i: nat, n: nat)
    requires i <= n < |s| && Lower(s[n]) == letter && forall j :: i <= j < n ==> Lower(s[j]) != letter
    ensures Find(s, letter, i) == n
    decreases n - i
  {
    if i < n {
      FindSkips(s, letter, i + 1, n);
    }
  }

  predicate LowerCase(s: string) {
    forall i :: 0 <= i < |s| ==> Lower(s[i]) == s[i]
  }

  predicate IsFormat(c: char) {
    c == 'b' || c == 'h' || c == 'o'
  }

  lemma {:induction false} ReadsStream(t: string, k: nat, first: nat, buf: string, n: nat)
    requires (k == 1 || IsWide(k)) && first <= |t| && t[first..] == Reversed(buf, |buf|) && n <= |buf|
    ensures AllBits(t, k, first, first + n) == StreamFrom(buf, k, |buf| - n)
  {
    if n > 0 {
      ReadsStream(t, k, first, buf, n - 1);
      assert t[first + n - 1] == t[first..][n - 1] == buf[|buf| - n];
    }
  }

  lemma TextParts(w: nat, fmt: char, buf: string)
    requires IsFormat(fmt)
    ensures var t, d := Text(w, fmt, buf), |Decimal(w)|;
            && |t| == d + 2 + |buf| && t[d] == '\'' && t[d + 1] == fmt
            && (forall j :: 0 <= j < d ==> IsDigit(t[j]))
            && t[d + 2..] == Reversed(buf, |buf|)
            && Find(t, fmt, 0) == d + 1 && Find(t, '\'', 0) == d
            && NumberTo(t, Digits(t, 0)) == w
  {
    var t, d := Text(w, fmt, buf), |Decimal(w)|;
    assert t == Decimal(w) + (['\'', fmt] + Reversed(buf, |buf|));
    NumberReadBack(w, ['\'', fmt] + Reversed(buf, |buf|));
    FindSkips(t, fmt, 0, d + 1);
    FindSkips(t, '\'', 0, d);
  }

  function Step(fmt: char): nat {
    if fmt == 'b' then 1 else if fmt == 'h' then 4 else 3
  }

  lemma BitsOfText(w: nat, fmt: char, buf: string)
    requires 1 <= w <= MAXBITS && IsFormat(fmt)
    ensures var t := Text(w, fmt, buf);
            BitsRead(t, fmt, Step(fmt)) == Fit(Stream(buf, Step(fmt)), w, Filler(t, |Decimal(w)| + 2))
  {
    TextParts(w, fmt, buf);
    PartsRead(Text(w, fmt, buf), w, fmt, Step(fmt), |Decimal(w)| + 2, buf);
  }

  /** What a text with digits from first on is read as. */
  lemma PartsRead(t: string, w: nat, fmt: char, k: nat, first: nat, buf: string)
    requires (k == 1 || IsWide(k)) && 1 <= w <= MAXBITS
    requires |t| == first + |buf| && t[first..] == Reversed(buf, |buf|)
    requires Find(t, fmt, 0) + 1 == first && NumberTo(t, Digits(t, 0)) == w
    ensures BitsRead(t, fmt, k) == Fit(Stream(buf, k), w, Filler(t, first))
  {
    AllAreRead(t, k, first, buf);
    SizeIs(t, w);
  }

  lemma AllAreRead(t: string, k: nat, first: nat, buf: string)
    requires (k == 1 || IsWide(k)) && |t| == first + |buf| && t[first..] == Reversed(buf, |buf|)
    ensures AllBits(t, k, first, |t|) == Stream(buf, k)
  {
    ReadsStream(t, k, first, buf, |buf|);
  }

  lemma SizeIs(t: string, w: nat)
    requires 1 <= w <= MAXBITS && NumberTo(t, Digits(t, 0)) == w
    ensures Size(t) == w
  {
  }

  /** A printed text is read as its stream of bits, cut or filled up to the width. */
  lemma TextReads(w: nat, fmt: char, buf: string)
    requires 1 <= w <= MAXBITS && IsFormat(fmt) && LowerCase(buf)
    ensures var t := Text(w, fmt, buf);
            Parsed(t) == Fit(Stream(buf, Step(fmt)), w, Filler(t, |Decimal(w)| + 2))
  {
    BitsOfText(w, fmt, buf);
    TextParts(w, fmt, buf);
    TextIsLower(w, fmt, buf);
  }

  lemma TextIsLower(w: nat, fmt: char, buf: string)
    requires IsFormat(fmt) && LowerCase(buf)
    ensures Lowered(Text(w, fmt, buf)) == Text(w, fmt, buf)
  {
    var t, d := Text(w, fmt, buf), |Decimal(w)|;
    TextParts(w, fmt, buf);
    forall i | 0 <= i < |t| ensures Lower(t[i]) == t[i] {
      if i >= d + 2 {
        assert t[i] == t[d + 2..][i - d - 2];
      }
    }
  }

  // ---- binary ----

  lemma {:induction false} BinStream(bits: Vec, n: nat)
    requires n <= |bits|
    ensures Stream(BinChars(bits, n), 1) == bits[..n]
  {
    if n > 0 {
      BinStream(bits, n - 1);
      assert BinChars(bits, n) == BinChars(bits, n - 1) + [BinChar(bits[n - 1])];
      StreamConcat(BinChars(bits, n - 1), [BinChar(bits[n - 1])], 1);
      OneBit(bits[n - 1]);
    }
  }

  lemma OneBit(b: Bit)
    ensures Stream([BinChar(b)], 1) == [b]
  {
    assert StreamFrom([BinChar(b)], 1, 1) == [];
  }

  lemma BinaryRoundTrip(bits: Vec)
    requires 1 <= |bits| <= MAXBITS
    ensures Parsed(Text(|bits|, 'b', BinChars(bits, |bits|))) == bits
  {
    TextReads(|bits|, 'b', BinChars(bits, |bits|));
    BinStream(bits, |bits|);
  }

  // ---- digits of several bits ----

  /** A digit that stands for a group is read back as the group. */
  lemma DigitReads(t: Vec)
    requires IsWide(|t|) && forall j :: 0 <= j < |t| ==> Known(t[j])
    ensures CharBits(HexC(Value(t)), |t|) == t
  {
    HexReads(Value(t), |t|);
    ValueBits(t);
  }

  lemma HexReads(v: nat, k: nat)
    requires IsWide(k) && v < 16 && (k == 3 ==> v < 8)
    ensures CharBits(HexC(v), k) == NumberBits(v, k)
  {
  }

  lemma ValueBits(t: Vec)
    requires IsWide(|t|) && forall j :: 0 <= j < |t| ==> Known(t[j])
    ensures NumberBits(Value(t), |t|) == t
  {
    var b0, b1, b2 := t[0] == H, t[1] == H, t[2] == H;
    assert ValueTo(t, 1) == if b0 then 1 else 0;
    assert ValueTo(t, 2) == ValueTo(t, 1) + if b1 then 2 else 0;
    assert ValueTo(t, 3) == ValueTo(t, 2) + if b2 then 4 else 0;
  }

  predicate KnownGroup(bits: Vec, k: nat, g: nat) {
    !Unknown(GroupBit(bits, k, g, 0))
  }

  /** The digit of a group, unless it is an unknown one in octal, is read back as the group. */
  lemma GroupReads(bits: Vec, k: nat, g: nat)
    requires IsWide(k) && !Mixed(bits, k, g) && (k == 4 || KnownGroup(bits, k, g))
    ensures Stream(GroupChars(bits, k, g), k) == Group(bits, k, g)
  {
    var t, s := Group(bits, k, g), GroupChars(bits, k, g);
    GroupFacts(bits, k, g);
    assert StreamFrom(s, k, |s|) == [];
    if KnownGroup(bits, k, g) {
      DigitReads(t);
    } else {
      assert Same(t) && t[0] == GroupBit(bits, k, g, 0);
      assert CharBits(s[0], k) == t;
    }
  }

  /** An unknown octal digit is read as itself and a zero digit above it. */
  lemma UnknownReads(bits: Vec, g: nat)
    requires !Mixed(bits, 3, g) && !KnownGroup(bits, 3, g)
    ensures Stream(GroupChars(bits, 3, g), 3) == Group(bits, 3, g) + Repeat(L, 3)
  {
    var t, s := Group(bits, 3, g), GroupChars(bits, 3, g);
    GroupFacts(bits, 3, g);
    assert Same(t) && t[0] == GroupBit(bits, 3, g, 0);
    assert CharBits(s[0], 3) == t;
    assert CharBits(s[1], 3) == Repeat(L, 3);
    assert StreamFrom(s, 3, 2) == [];
    assert StreamFrom(s, 3, 1) == Repeat(L, 3);
  }

  // ---- the pieces put together ----

  /** The first n pieces, one after the other. */
  function Cat<T>(piece: nat -> seq<T>, n: nat): seq<T> {
    if n == 0 then [] else Cat(piece, n - 1) + piece(n - 1)
  }

  lemma {:induction false} CatIs<T>(piece: nat -> seq<T>, whole: nat -> seq<T>, n: nat)
    requires whole(0) == [] && forall g: nat :: whole(g + 1) == whole(g) + piece(g)
    ensures whole(n) == Cat(piece, n)
  {
    if n > 0 {
      CatIs(piece, whole, n - 1);
      assert whole((n - 1) + 1) == whole(n - 1) + piece(n - 1);
    }
  }

  lemma {:induction false} CatGrows<T>(piece: nat -> seq<T>, h: nat, n: nat)
    requires h <= n
    ensures Cat(piece, h) <= Cat(piece, n)
    decreases n
  {
    if h < n {
      CatGrows(piece, h, n - 1);
    }
  }

  lemma {:induction false} CatIsLong<T>(piece: nat -> seq<T>, n: nat)
    requires forall g :: 0 <= g < n ==> |piece(g)| >= 3
    ensures |Cat(piece, n)| >= 3 * n
  {
    if n > 0 {
      CatIsLong(piece, n - 1);
    }
  }

  /** Reading pieces of text that stand for pieces of bits. */
  lemma {:induction false} CatReads(texts: nat -> string, piece: nat -> Vec, k: nat, n: nat)
    requires (k == 1 || IsWide(k)) && forall g :: 0 <= g < n ==> Stream(texts(g), k) == piece(g)
    ensures Stream(Cat(texts, n), k) == Cat(piece, n)
  {
    if n > 0 {
      CatReads(texts, piece, k, n - 1);
      StreamConcat(Cat(texts, n - 1), texts(n - 1), k);
    } else {
      assert Stream(Cat(texts, 0), k) == [];
    }
  }

  /** v is the first |v| bits of the vector, zeros beyond its end. */
  predicate Shows(v: Vec, bits: Vec) {
    forall p :: 0 <= p < |v| ==> v[p] == At(bits, p)
  }

  /** v is group g. */
  predicate IsGroup(v: Vec, bits: Vec, k: nat, g: nat) {
    |v| == k && forall j :: 0 <= j < k ==> v[j] == At(bits, Offset(g, k) + j)
  }

  /** v is the first n groups. */
  predicate ShowsGroups(v: Vec, bits: Vec, k: nat, n: nat) {
    |v| == Offset(n, k) && Shows(v, bits)
  }

  lemma ShowsFurther(v: Vec, t: Vec, bits: Vec, k: nat, g: nat)
    requires IsWide(k) && ShowsGroups(v, bits, k, g) && IsGroup(t, bits, k, g)
    ensures ShowsGroups(v + t, bits, k, g + 1)
  {
    forall p | |v| <= p < |v + t| ensures (v + t)[p] == At(bits, p) {
      assert (v + t)[p] == t[p - |v|];
    }
  }

  lemma {:induction false} CatShows(piece: nat -> Vec, bits: Vec, k: nat, n: nat)
    requires IsWide(k) && forall g :: 0 <= g < n ==> IsGroup(piece(g), bits, k, g)
    ensures ShowsGroups(Cat(piece, n), bits, k, n)
  {
    if n > 0 {
      CatShows(piece, bits, k, n - 1);
      ShowsFurther(Cat(piece, n - 1), piece(n - 1), bits, k, n - 1);
    }
  }

  /** v is the vector up to and including group g, and zeros from there on. */
  predicate Shifted(v: Vec, bits: Vec, g: nat, h: nat) {
    && |v| == Offset(h + 1, 3)
    && forall p :: 0 <= p < |v| ==> v[p] == if p < Offset(g + 1, 3) then At(bits, p) else L
  }

  predicate Zeros(v: Vec) {
    |v| == 3 && v[0] == L && v[1] == L && v[2] == L
  }

  lemma ShiftedFirst(v: Vec, t: Vec, z: Vec, bits: Vec, g: nat)
    requires ShowsGroups(v, bits, 3, g) && IsGroup(t, bits, 3, g) && Zeros(z)
    ensures Shifted(v + (t + z), bits, g, g + 1)
  {
    ShowsFurther(v, t, bits, 3, g);
    var u := v + t;
    assert v + (t + z) == u + z;
    forall p | 0 <= p < |u + z| ensures (u + z)[p] == if p < Offset(g + 1, 3) then At(bits, p) else L {
      assert (u + z)[p] == if p < |u| then u[p] else z[p - |u|];
    }
  }

  lemma ShiftedFurther(v: Vec, z: Vec, bits: Vec, g: nat, h: nat)
    requires g < h && Shifted(v, bits, g, h) && Zeros(z)
    ensures Shifted(v + z, bits, g, h + 1)
  {
    forall p | 0 <= p < |v + z| ensures (v + z)[p] == if p < Offset(g + 1, 3) then At(bits, p) else L {
      assert (v + z)[p] == if p < |v| then v[p] else z[p - |v|];
    }
  }

  lemma {:induction false} CatShifts(piece: nat -> Vec, t: Vec, z: Vec, bits: Vec, g: nat, h: nat)
    requires g < h && forall j :: 0 <= j < g ==> IsGroup(piece(j), bits, 3, j)
    requires IsGroup(t, bits, 3, g) && Zeros(z) && piece(g) == t + z
    requires forall j :: g < j < h ==> Zeros(piece(j))
    ensures Shifted(Cat(piece, h), bits, g, h)
    decreases h
  {
    if h == g + 1 {
      CatShows(piece, bits, 3, g);
      ShiftedFirst(Cat(piece, g), t, z, bits, g);
    } else {
      CatShifts(piece, t, z, bits, g, h - 1);
      ShiftedFurther(Cat(piece, h - 1), piece(h - 1), bits, g, h - 1);
    }
  }

  // ---- the groups of a vector ----

  /** What reading back group g gives. */
  function ReadGroup(bits: Vec, k: nat, g: nat): Vec {
    if k == 3 && !KnownGroup(bits, k, g) then Group(bits, k, g) + Repeat(L, 3) else Group(bits, k, g)
  }

  function ReadGroups(bits: Vec, k: nat): nat -> Vec {
    (g: nat) => ReadGroup(bits, k, g)
  }

  function TextGroups(bits: Vec, k: nat): nat -> string
    requires IsWide(k)
  {
    (g: nat) => if IsWide(k) then GroupChars(bits, k, g) else []
  }

  lemma GroupsCharsAre(bits: Vec, k: nat, n: nat)
    requires IsWide(k)
    ensures GroupsChars(bits, k, n) == Cat(TextGroups(bits, k), n)
  {
    var whole := (g: nat) => if IsWide(k) then GroupsChars(bits, k, g) else [];
    forall g: nat ensures whole(g + 1) == whole(g) + TextGroups(bits, k)(g) {
      assert GroupsChars(bits, k, g + 1) == GroupsChars(bits, k, g) + GroupChars(bits, k, g);
    }
    CatIs(TextGroups(bits, k), whole, n);
  }

  /** What reading back the first n groups gives. */
  function GroupsStream(bits: Vec, k: nat, n: nat): Vec {
    Cat(ReadGroups(bits, k), n)
  }

  lemma GroupsStreamIs(bits: Vec, k: nat, n: nat)
    requires IsWide(k) && Grouped(bits, k, n)
    ensures Stream(GroupsChars(bits, k, n), k) == GroupsStream(bits, k, n)
  {
    var texts, piece := TextGroups(bits, k), ReadGroups(bits, k);
    forall g | 0 <= g < n ensures Stream(texts(g), k) == piece(g) {
      if k == 4 || KnownGroup(bits, k, g) {
        GroupReads(bits, k, g);
      } else {
        UnknownReads(bits, g);
      }
    }
    GroupsCharsAre(bits, k, n);
    CatReads(texts, piece, k, n);
  }

  lemma GroupsRead(bits: Vec, k: nat, n: nat)
    requires IsWide(k) && (k == 4 || forall g :: 0 <= g < n ==> KnownGroup(bits, k, g))
    ensures ShowsGroups(GroupsStream(bits, k, n), bits, k, n)
  {
    var piece := ReadGroups(bits, k);
    forall g | 0 <= g < n ensures IsGroup(piece(g), bits, k, g) {
      assert piece(g) == Group(bits, k, g);
    }
    CatShows(piece, bits, k, n);
  }

  lemma {:induction false} DigitsAreLower(bits: Vec, k: nat, n: nat)
    requires IsWide(k)
    ensures LowerCase(GroupsChars(bits, k, n))
  {
    if n > 0 {
      DigitsAreLower(bits, k, n - 1);
      var c := GroupChars(bits, k, n - 1);
      forall i | 0 <= i < |c| ensures Lower(c[i]) == c[i] {
      }
    }
  }

  lemma EnoughGroups(w: nat, k: nat)
    requires IsWide(k)
    ensures Offset(Groups(w, k), k) >= w
  {
    GroupsLeft(w, k, Groups(w, k));
  }

  lemma FitShows(v: Vec, bits: Vec, b: Bit)
    requires Shows(v, bits) && |v| >= |bits|
    ensures Fit(v, |bits|, b) == bits
  {
  }

  /** No reader gives more bits than the longest literal has. */
  lemma ParsedIsShort(t: string)
    ensures |Parsed(t)| <= MAXBITS
  {
  }

  /** In binary and in hexadecimal, whatever the bits, what is printed is read back exactly when it
      is no longer than the longest literal. */
  lemma PrintedReadsBack(bits: Vec, d: Display)
    requires 1 <= |bits| && (d == AsBin || d == AsHex)
    ensures Parsed(Printed(bits, d)) == bits <==> |bits| <= MAXBITS
  {
    ParsedIsShort(Printed(bits, d));
    if |bits| <= MAXBITS {
      ShortReadsBack(bits, d);
    }
  }

  lemma ShortReadsBack(bits: Vec, d: Display)
    requires 1 <= |bits| <= MAXBITS && (d == AsBin || d == AsHex)
    ensures Parsed(Printed(bits, d)) == bits
  {
    var w, n := |bits|, Groups(|bits|, 4);
    if w != 1 && d == AsHex && Grouped(bits, 4, n) {
      var buf := GroupsChars(bits, 4, n);
      DigitsAreLower(bits, 4, n);
      TextReads(w, 'h', buf);
      GroupsRead(bits, 4, n);
      GroupsStreamIs(bits, 4, n);
      EnoughGroups(w, 4);
      FitShows(GroupsStream(bits, 4, n), bits, Filler(Text(w, 'h', buf), |Decimal(w)| + 2));
    } else {
      BinaryRoundTrip(bits);
    }
  }

  // ---- octal ----

  /** Printing in octal falls back to binary, or nothing but zeros lies above an unknown digit. */
  predicate OctalSafe(bits: Vec) {
    || |bits| == 1
    || !Grouped(bits, 3, Groups(|bits|, 3))
    || forall i, p :: 0 <= i < |bits| && 0 <= p < |bits| && Unknown(bits[i]) && p / 3 > i / 3 ==> bits[p] == L
  }

  predicate ZeroGroup(bits: Vec, g: nat) {
    GroupBit(bits, 3, g, 0) == L && GroupBit(bits, 3, g, 1) == L && GroupBit(bits, 3, g, 2) == L
  }

  /** Above the lowest unknown digit g everything is read one digit too high; as long as it is all
      zeros, that makes no difference. */
  lemma OctalShifts(bits: Vec, g: nat, h: nat)
    requires g < h && !KnownGroup(bits, 3, g)
    requires forall j :: 0 <= j < g ==> KnownGroup(bits, 3, j)
    requires forall j :: g < j < h ==> ZeroGroup(bits, j)
    ensures Shifted(GroupsStream(bits, 3, h), bits, g, h)
  {
    var piece := ReadGroups(bits, 3);
    forall j | 0 <= j < g ensures IsGroup(piece(j), bits, 3, j) {
      assert piece(j) == Group(bits, 3, j);
    }
    forall j | g < j < h ensures Zeros(piece(j)) {
      assert ZeroGroup(bits, j) && piece(j) == Group(bits, 3, j);
    }
    CatShifts(piece, Group(bits, 3, g), Repeat(L, 3), bits, g, h);
  }

  /** The lowest unknown group among the first n. */
  lemma {:induction false} LowestUnknown(bits: Vec, n: nat) returns (g: nat)
    requires exists j :: 0 <= j < n && !KnownGroup(bits, 3, j)
    ensures g < n && !KnownGroup(bits, 3, g) && forall j :: 0 <= j < g ==> KnownGroup(bits, 3, j)
  {
    if j :| 0 <= j < n - 1 && !KnownGroup(bits, 3, j) {
      g := LowestUnknown(bits, n - 1);
    } else {
      g := n - 1;
    }
  }

  /** The lowest group from g on that is not zero, if there is one below n. */
  lemma {:induction false} LowestNonZero(bits: Vec, g: nat, n: nat) returns (h: nat)
    requires g <= n
    ensures g <= h <= n && (h < n ==> !ZeroGroup(bits, h)) && forall j :: g <= j < h ==> ZeroGroup(bits, j)
    decreases n - g
  {
    if g < n && ZeroGroup(bits, g) {
      h := LowestNonZero(bits, g + 1, n);
    } else {
      h := g;
    }
  }

  lemma OctalReads(bits: Vec)
    requires 1 < |bits| <= MAXBITS && Grouped(bits, 3, Groups(|bits|, 3))
    ensures |GroupsStream(bits, 3, Groups(|bits|, 3))| >= |bits|
    ensures Parsed(Printed(bits, AsOct)) == GroupsStream(bits, 3, Groups(|bits|, 3))[..|bits|]
  {
    var w, n := |bits|, Groups(|bits|, 3);
    DigitsAreLower(bits, 3, n);
    TextReads(w, 'o', GroupsChars(bits, 3, n));
    GroupsStreamIs(bits, 3, n);
    EnoughGroups(w, 3);
    CatIsLong(ReadGroups(bits, 3), n);
  }

  /** Every bit lies in its group. */
  lemma BitInGroup(bits: Vec, p: nat)
    requires p < |bits|
    ensures p / 3 < Groups(|bits|, 3) && bits[p] == GroupBit(bits, 3, p / 3, p % 3) && p % 3 < 3
    ensures !Mixed(bits, 3, p / 3) && KnownGroup(bits, 3, p / 3) ==> !Unknown(bits[p])
    ensures ZeroGroup(bits, p / 3) ==> bits[p] == L
  {
    assert p == Offset(p / 3, 3) + p % 3;
  }

  lemma KnownOctal(bits: Vec)
    requires 1 < |bits| <= MAXBITS && Grouped(bits, 3, Groups(|bits|, 3))
    requires forall g :: 0 <= g < Groups(|bits|, 3) ==> KnownGroup(bits, 3, g)
    ensures Parsed(Printed(bits, AsOct)) == bits && OctalSafe(bits)
  {
    var n := Groups(|bits|, 3);
    OctalReads(bits);
    GroupsRead(bits, 3, n);
    FitShows(GroupsStream(bits, 3, n), bits, L);
    forall i | 0 <= i < |bits| ensures !Unknown(bits[i]) {
      BitInGroup(bits, i);
    }
  }

  /** A bit that is not zero in group h is read as zero. */
  lemma ReadAsZero(bits: Vec, g: nat, h: nat, p: nat, u: Vec, v: Vec)
    requires g < h && Offset(h, 3) <= p < Offset(h + 1, 3) && p < |bits| && bits[p] != L
    requires Shifted(u, bits, g, h) && u <= v && |v| >= |bits|
    ensures v[..|bits|] != bits
  {
    assert u[p] == L && v[p] == u[p] && v[..|bits|][p] == v[p];
  }

  lemma UnsafeBits(bits: Vec, i: nat, p: nat)
    requires |bits| > 1 && Grouped(bits, 3, Groups(|bits|, 3))
    requires i < |bits| && p < |bits| && Unknown(bits[i]) && p / 3 > i / 3 && bits[p] != L
    ensures !OctalSafe(bits)
  {
  }

  lemma UnsafeOctal(bits: Vec, g: nat, h: nat, v: Vec)
    requires g < h < Groups(|bits|, 3) && Grouped(bits, 3, Groups(|bits|, 3)) && |bits| > 1
    requires !KnownGroup(bits, 3, g) && !ZeroGroup(bits, h)
    requires Shifted(GroupsStream(bits, 3, h), bits, g, h) && GroupsStream(bits, 3, h) <= v && |v| >= |bits|
    ensures v[..|bits|] != bits && !OctalSafe(bits)
  {
    var p := NonZeroBit(bits, h);
    UnknownBit(bits, g);
    ReadAsZero(bits, g, h, p, GroupsStream(bits, 3, h), v);
    UnsafeBits(bits, Offset(g, 3), p);
  }

  lemma NonZeroBit(bits: Vec, h: nat) returns (p: nat)
    requires !ZeroGroup(bits, h)
    ensures Offset(h, 3) <= p < Offset(h + 1, 3) && p / 3 == h && p < |bits| && bits[p] != L
  {
    var j: nat :| j < 3 && GroupBit(bits, 3, h, j) != L;
    p := Offset(h, 3) + j;
    assert GroupBit(bits, 3, h, j) == At(bits, p);
  }

  lemma UnknownBit(bits: Vec, g: nat)
    requires !KnownGroup(bits, 3, g)
    ensures Offset(g, 3) < |bits| && Offset(g, 3) / 3 == g && Unknown(bits[Offset(g, 3)])
  {
    assert GroupBit(bits, 3, g, 0) == At(bits, Offset(g, 3));
  }

  lemma SafeOctal(bits: Vec, g: nat)
    requires g < Groups(|bits|, 3) && Grouped(bits, 3, Groups(|bits|, 3))
    requires forall j :: 0 <= j < g ==> KnownGroup(bits, 3, j)
    requires forall j :: g < j < Groups(|bits|, 3) ==> ZeroGroup(bits, j)
    requires Shifted(GroupsStream(bits, 3, Groups(|bits|, 3)), bits, g, Groups(|bits|, 3))
    requires |GroupsStream(bits, 3, Groups(|bits|, 3))| >= |bits|
    ensures GroupsStream(bits, 3, Groups(|bits|, 3))[..|bits|] == bits && OctalSafe(bits)
  {
    var v := GroupsStream(bits, 3, Groups(|bits|, 3));
    forall p | 0 <= p < |bits| ensures v[p] == bits[p] && (p / 3 > g ==> bits[p] == L) {
      BitInGroup(bits, p);
    }
    forall i | 0 <= i < |bits| && Unknown(bits[i]) ensures i / 3 >= g {
      BitInGroup(bits, i);
    }
  }

  /** A vector of six unknown bits, for one, is read back with its upper half zero. */
  lemma SixUnknown()
    ensures !OctalSafe([X, X, X, X, X, X])
    ensures Parsed(Printed([X, X, X, X, X, X], AsOct)) != [X, X, X, X, X, X]
  {
    var v := [X, X, X, X, X, X];
    assert forall g, j :: 0 <= g < 2 && 0 <= j < 3 ==> GroupBit(v, 3, g, j) == X;
    assert Unknown(v[0]) && 3 / 3 > 0 / 3 && v[3] != L;
    OctalReadsBackExactlyWhenSafe(v);
  }

  /** In octal, what is printed is read back exactly when it is safe and not too long. */
  lemma OctalReadsBackExactlyWhenSafe(bits: Vec)
    requires 1 <= |bits|
    ensures Parsed(Printed(bits, AsOct)) == bits <==> |bits| <= MAXBITS && OctalSafe(bits)
  {
    ParsedIsShort(Printed(bits, AsOct));
    if |bits| <= MAXBITS {
      ShortOctal(bits);
    }
  }

  lemma ShortOctal(bits: Vec)
    requires 1 <= |bits| <= MAXBITS
    ensures Parsed(Printed(bits, AsOct)) == bits <==> OctalSafe(bits)
  {
    var n := Groups(|bits|, 3);
    if |bits| == 1 || !Grouped(bits, 3, n) {
      BinaryRoundTrip(bits);
    } else if forall j :: 0 <= j < n ==> KnownGroup(bits, 3, j) {
      KnownOctal(bits);
    } else {
      OctalReads(bits);
      UnknownOctal(bits);
    }
  }

  lemma UnknownOctal(bits: Vec)
    requires |bits| > 1 && Grouped(bits, 3, Groups(|bits|, 3))
    requires exists j :: 0 <= j < Groups(|bits|, 3) && !KnownGroup(bits, 3, j)
    requires |GroupsStream(bits, 3, Groups(|bits|, 3))| >= |bits|
    ensures GroupsStream(bits, 3, Groups(|bits|, 3))[..|bits|] == bits <==> OctalSafe(bits)
  {
    var n := Groups(|bits|, 3);
    var g := LowestUnknown(bits, n);
    var h := LowestNonZero(bits, g + 1, n);
    OctalShifts(bits, g, h);
    CatGrows(ReadGroups(bits, 3), h, n);
    if h < n {
      UnsafeOctal(bits, g, h, GroupsStream(bits, 3, n));
    } else {
      assert h == n;
      SafeOctal(bits, g);
    }
  }

  // ---- every printed text is a literal ----

  predicate AllDigits(buf: string, k: nat)
    requires k == 1 || IsWide(k)
  {
    forall i :: 0 <= i < |buf| ==> CharBits(buf[i], k) != []
  }

  lemma TextIsLexed(w: nat, fmt: char, buf: string)
    requires IsFormat(fmt) && AllDigits(buf, Step(fmt))
    ensures Lexed(Text(w, fmt, buf), fmt, Step(fmt))
  {
    var t, d := Text(w, fmt, buf), |Decimal(w)|;
    TextParts(w, fmt, buf);
    forall i | d + 1 < i < |t| ensures CharBits(t[i], Step(fmt)) != [] {
      assert t[i] == t[d + 2..][i - d - 2] == buf[|buf| - 1 - (i - d - 2)];
    }
  }

  lemma GroupsAreDigits(bits: Vec, k: nat, n: nat)
    requires IsWide(k) && Grouped(bits, k, n)
    ensures AllDigits(GroupsChars(bits, k, n), k)
  {
    var texts := TextGroups(bits, k);
    forall g: nat | g < n ensures AllDigits(texts(g), k) {
      GroupIsDigits(bits, k, g);
    }
    CatIsDigits(texts, n, k);
    GroupsCharsAre(bits, k, n);
  }

  lemma {:induction false} CatIsDigits(piece: nat -> string, n: nat, k: nat)
    requires (k == 1 || IsWide(k)) && forall g: nat :: g < n ==> AllDigits(piece(g), k)
    ensures AllDigits(Cat(piece, n), k)
  {
    if n > 0 {
      CatIsDigits(piece, n - 1, k);
      AllDigitsConcat(Cat(piece, n - 1), piece(n - 1), k);
    }
  }

  lemma GroupIsDigits(bits: Vec, k: nat, g: nat)
    requires IsWide(k) && !Mixed(bits, k, g)
    ensures AllDigits(GroupChars(bits, k, g), k)
  {
    GroupFacts(bits, k, g);
  }

  lemma AllDigitsConcat(p: string, q: string, k: nat)
    requires (k == 1 || IsWide(k)) && AllDigits(p, k) && AllDigits(q, k)
    ensures AllDigits(p + q, k)
  {
  }

  /** The format letter of what is printed. */
  function FormatOf(bits: Vec, d: Display): char {
    if |bits| == 1 || d == AsBin then 'b'
    else if d == AsHex then if Grouped(bits, 4, Groups(|bits|, 4)) then 'h' else 'b'
    else if Grouped(bits, 3, Groups(|bits|, 3)) then 'o' else 'b'
  }

  /** What is printed is a literal of its format for the lexer, with the right letter, so that the
      reader for that format is given it. */
  lemma PrintedIsLexed(bits: Vec, d: Display)
    requires d != AsOther
    ensures var t, fmt := Printed(bits, d), FormatOf(bits, d);
            Lowered(t) == t && Find(t, '\'', 0) + 1 < |t| && t[Find(t, '\'', 0) + 1] == fmt && Lexed(t, fmt, Step(fmt))
  {
    var w, fmt := |bits|, FormatOf(bits, d);
    var buf := if fmt == 'b' then BinChars(bits, w) else GroupsChars(bits, Step(fmt), Groups(w, Step(fmt)));
    if fmt == 'b' {
      forall i | 0 <= i < w ensures CharBits(buf[i], 1) != [] && Lower(buf[i]) == buf[i] {
        OneBit(bits[i]);
      }
    } else {
      GroupsAreDigits(bits, Step(fmt), Groups(w, Step(fmt)));
      DigitsAreLower(bits, Step(fmt), Groups(w, Step(fmt)));
    }
    TextParts(w, fmt, buf);
    TextIsLower(w, fmt, buf);
    TextIsLexed(w, fmt, buf);
  }
}
