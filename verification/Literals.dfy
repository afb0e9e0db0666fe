/** Sized bit literals: how vectors are printed, and how literals are read back. */
module Literals {
  import opened Basics
  import opened Bits

  datatype Display = AsBin | AsHex | AsOct | AsOther

  /** The longest literal, as set in vl/include/vl_defs.h:88, and the size of the printer's buffer. */
  const MAXBITS := 32
  const BUFFER := 256

  // ---- characters ----

  function HexC(x: nat): char
    requires x < 16
  {
    "0123456789abcdef"[x]
  }

  function HexNum(d: nat): string
    requires d < 16
    ensures |HexNum(d)| == 4
  {
    match d
    case 0 => "0000" case 1 => "0001" case 2 => "0010" case 3 => "0011"
    case 4 => "0100" case 5 => "0101" case 6 => "0110" case 7 => "0111"
    case 8 => "1000" case 9 => "1001" case 10 => "1010" case 11 => "1011"
    case 12 => "1100" case 13 => "1101" case 14 => "1110" case _ => "1111"
  }

  function BinChar(b: Bit): char {
    match b case Z => 'z' case X => 'x' case H => '1' case L => '0'
  }

  function Lowered(s: string): (r: string)
    ensures |r| == |s| && forall i :: 0 <= i < |s| ==> r[i] == Lower(s[i])
  {
    seq(|s|, i requires 0 <= i < |s| => Lower(s[i]))
  }

  /** The bits that one digit stands for, least significant first: none for a separator. */
  function CharBits(c: char, k: nat): (r: Vec)
    requires k in {1, 3, 4}
    ensures r == [] || |r| == k
  {
    if c == 'x' || (k == 1 && c == 'X') then Repeat(X, k)
    else if c == 'z' || c == '?' || (k == 1 && c == 'Z') then Repeat(Z, k)
    else if '0' <= c <= '9' && DigitFits(c as int - '0' as int, k) then NumberBits(c as int - '0' as int, k)
    else if k == 4 && 'a' <= c <= 'f' then NumberBits(c as int - 'a' as int + 10, k)
    else []
  }

  function DigitFits(d: nat, k: nat): bool {
    if k == 1 then d < 2 else if k == 3 then d < 8 else true
  }

  function Repeat(b: Bit, k: nat): (r: Vec)
    ensures |r| == k && forall i :: 0 <= i < k ==> r[i] == b
  {
    seq(k, _ => b)
  }

  function NumberBits(d: nat, k: nat): (r: Vec)
    requires d < 16 && k <= 4
    ensures |r| == k && forall i :: 0 <= i < k ==> r[i] == if HexNum(d)[3 - i] == '1' then H else L
  {
    seq(k, i requires 0 <= i < k => if HexNum(d)[3 - i] == '1' then H else L)
  }

  // ---- numbers in texts ----

  function Decimal(n: nat): (r: string)
    ensures r != [] && forall j :: 0 <= j < |r| ==> IsDigit(r[j])
  {
    if n < 10 then [HexC(n)] else Decimal(n / 10) + [HexC(n % 10)]
  }

  predicate IsDigit(c: char) {
    '0' <= c <= '9'
  }

  /** How many digits the text begins with, from position i on. */
  function Digits(s: string, i: nat): (n: nat)
    requires i <= |s|
    ensures i <= n <= |s| && (forall j :: i <= j < n ==> IsDigit(s[j])) && (n < |s| ==> !IsDigit(s[n]))
    decreases |s| - i
  {
    if i < |s| && IsDigit(s[i]) then Digits(s, i + 1) else i
  }

  function NumberTo(s: string, n: nat): nat
    requires n <= |s| && forall j :: 0 <= j < n ==> IsDigit(s[j])
  {
    if n == 0 then 0 else assert IsDigit(s[n - 1]); NumberTo(s, n - 1) * 10 + (s[n - 1] as int - '0' as int)
  }

  method Atoi(s: string) returns (n: nat)
    ensures n == NumberTo(s, Digits(s, 0))
  {
    n := 0;
    var i := 0;
    while i < |s| && IsDigit(s[i])
      invariant 0 <= i <= |s| && (forall j :: 0 <= j < i ==> IsDigit(s[j]))
      invariant n == NumberTo(s, i) && Digits(s, 0) == Digits(s, i)
    {
      n := n * 10 + (s[i] as int - '0' as int);
      i := i + 1;
    }
  }

  lemma {:induction false} NumberOfPrefix(s: string, t: string, n: nat)
    requires n <= |s| && forall j :: 0 <= j < n ==> IsDigit(s[j])
    ensures NumberTo(s + t, n) == NumberTo(s, n)
  {
    if n > 0 {
      NumberOfPrefix(s, t, n - 1);
    }
  }

  lemma OneMoreDigit(s: string, d: nat)
    requires d < 10 && forall j :: 0 <= j < |s| ==> IsDigit(s[j])
    ensures forall j :: 0 <= j < |s| + 1 ==> IsDigit((s + [HexC(d)])[j])
    ensures NumberTo(s + [HexC(d)], |s| + 1) == NumberTo(s, |s|) * 10 + d
  {
    NumberOfPrefix(s, [HexC(d)], |s|);
  }

  lemma {:induction false} NumberOfDecimal(n: nat)
    ensures NumberTo(Decimal(n), |Decimal(n)|) == n
  {
    if n < 10 {
      assert [] + [HexC(n)] == [HexC(n)];
      OneMoreDigit([], n);
    } else {
      NumberOfDecimal(n / 10);
      OneMoreDigit(Decimal(n / 10), n % 10);
    }
  }

  lemma {:induction false} DigitsSkip(s: string, i: nat, n: nat)
    requires i <= n <= |s| && (forall j :: i <= j < n ==> IsDigit(s[j])) && (n < |s| ==> !IsDigit(s[n]))
    ensures Digits(s, i) == n
    decreases n - i
  {
    if i < n {
      DigitsSkip(s, i + 1, n);
    }
  }

  /** A number in front of something else is read back. */
  lemma NumberReadBack(n: nat, rest: string)
    requires rest != [] && !IsDigit(rest[0])
    ensures var s := Decimal(n) + rest; Digits(s, 0) == |Decimal(n)| && NumberTo(s, Digits(s, 0)) == n
  {
    NumberOfDecimal(n);
    DigitsSkip(Decimal(n) + rest, 0, |Decimal(n)|);
    NumberOfPrefix(Decimal(n), rest, |Decimal(n)|);
  }

  // ---- printing ----

  predicate Unknown(b: Bit) {
    b == X || b == Z
  }

  predicate IsWide(k: nat) {
    k == 3 || k == 4
  }

  /** Bit j of group g, with groups of k bits; the last group is filled up with zeros. */
  function GroupBit(bits: Vec, k: nat, g: nat, j: nat): Bit {
    At(bits, Offset(g, k) + j)
  }

  /** Where group g of k bits begins. */
  function Offset(g: nat, k: nat): nat {
    if k == 3 then 3 * g else 4 * g
  }

  /** The group has an unknown bit but is not all the same: it has no digit of its own. */
  predicate Mixed(bits: Vec, k: nat, g: nat)
    requires IsWide(k)
  {
    var b := GroupBit(bits, k, g, 0);
    && (exists j :: 0 <= j < k && Unknown(GroupBit(bits, k, g, j)))
    && (exists j :: 0 <= j < k && GroupBit(bits, k, g, j) != b)
  }

  /** How many groups w bits make. */
  function Groups(w: nat, k: nat): nat
    requires IsWide(k)
  {
    if k == 3 then (w + 2) / 3 else (w + 3) / 4
  }

  predicate Grouped(bits: Vec, k: nat, n: nat)
    requires IsWide(k)
  {
    forall g :: 0 <= g < n ==> !Mixed(bits, k, g)
  }

  /** The number that the first j bits make. */
  function ValueTo(t: Vec, j: nat): (v: nat)
    requires j <= |t|
    ensures v < Pow2(j)
  {
    if j == 0 then 0 else ValueTo(t, j - 1) + if t[j - 1] == H then Pow2(j - 1) else 0
  }

  function Value(t: Vec): (v: nat)
    requires |t| <= 4
    ensures v < 16 && (|t| == 3 ==> v < 8)
  {
    assert Pow2(3) == 8 && Pow2(4) == 16;
    ValueTo(t, |t|)
  }

  function Group(bits: Vec, k: nat, g: nat): (r: Vec)
    ensures |r| == k && forall j :: 0 <= j < k ==> r[j] == GroupBit(bits, k, g, j)
  {
    seq(k, j requires 0 <= j < k => GroupBit(bits, k, g, j))
  }

  /** The characters of group g, least significant first. In octal an unknown digit is followed by
      the digit for its bits that are 1, of which there are none. */
  function GroupChars(bits: Vec, k: nat, g: nat): string
    requires IsWide(k)
  {
    var b := GroupBit(bits, k, g, 0);
    if Unknown(b) then [BinChar(b)] + (if k == 3 then ['0'] else [])
    else [HexC(Value(Group(bits, k, g)))]
  }

  function GroupsChars(bits: Vec, k: nat, n: nat): string
    requires IsWide(k)
  {
    if n == 0 then [] else GroupsChars(bits, k, n - 1) + GroupChars(bits, k, n - 1)
  }

  function BinChars(bits: Vec, n: nat): (r: string)
    requires n <= |bits|
    ensures |r| == n && forall i :: 0 <= i < n ==> r[i] == BinChar(bits[i])
  {
    seq(n, i requires 0 <= i < n => BinChar(bits[i]))
  }

  function Reversed(s: string, n: nat): (r: string)
    requires n <= |s|
    ensures |r| == n && forall i :: 0 <= i < n ==> r[i] == s[n - 1 - i]
  {
    seq(n, i requires 0 <= i < n => s[n - 1 - i])
  }

  function Text(w: nat, fmt: char, buf: string): string {
    Decimal(w) + ['\'', fmt] + Reversed(buf, |buf|)
  }

  /** What is printed: digits of k bits when every group has one, and single bits otherwise. */
  function Printed(bits: Vec, d: Display): string {
    var w := |bits|;
    if w == 1 || d == AsBin then Text(w, 'b', BinChars(bits, w))
    else if d == AsHex then
      if Grouped(bits, 4, Groups(w, 4)) then Text(w, 'h', GroupsChars(bits, 4, Groups(w, 4)))
      else Text(w, 'b', BinChars(bits, w))
    else if d == AsOct then
      if Grouped(bits, 3, Groups(w, 3)) then Text(w, 'o', GroupsChars(bits, 3, Groups(w, 3)))
      else Text(w, 'b', BinChars(bits, w))
    else []
  }

  method PrintBits(bits: Vec, dtype: Display) returns (out: string)
    requires |bits| <= BUFFER
    ensures out == Printed(bits, dtype)
    decreases if dtype == AsBin then 0 else 1
  {
    var d := if |bits| == 1 then AsBin else dtype;
    var buf := new char[BUFFER];
    if d == AsBin {
      var num := PrintBinary(bits, buf);
      out := Emit(|bits|, 'b', buf, num);
    } else if d == AsHex || d == AsOct {
      var k, fmt := if d == AsHex then 4 else 3, if d == AsHex then 'h' else 'o';
      var num, ok := PrintGroups(bits, k, buf);
      if ok {
        out := Emit(|bits|, fmt, buf, num);
      } else {
        out := PrintBits(bits, AsBin);
      }
    } else {
      out := [];
    }
  }

  /** The width, the format, and the buffer backwards. */
  method Emit(w: nat, fmt: char, buf: array<char>, n: nat) returns (out: string)
    requires n <= buf.Length
    ensures out == Text(w, fmt, buf[..n])
  {
    out := Decimal(w) + ['\'', fmt];
    ghost var head := out;
    var num := n;
    while num > 0
      invariant 0 <= num <= n && out == head + Reversed(buf[..n], n)[..n - num]
    {
      num := num - 1;
      out := out + [buf[num]];
    }
  }

  method PrintBinary(bits: Vec, buf: array<char>) returns (num: nat)
    requires |bits| <= BUFFER == buf.Length
    modifies buf
    ensures num == |bits| && buf[..num] == BinChars(bits, num)
  {
    num := 0;
    var i := 0;
    while i < |bits|
      invariant 0 <= i == num <= |bits| && buf[..num] == BinChars(bits, i)
    {
      buf[num] := if bits[i] == Z then 'z' else if bits[i] == X then 'x' else if bits[i] == H then '1' else '0';
      i, num := i + 1, num + 1;
    }
  }

  predicate Same(t: Vec) {
    forall j :: 0 <= j < |t| ==> t[j] == t[0]
  }

  /** Fill the buffer with one digit for k bits, unless a group has none. */
  method PrintGroups(bits: Vec, k: nat, buf: array<char>) returns (num: nat, ok: bool)
    requires IsWide(k) && |bits| <= BUFFER == buf.Length
    modifies buf
    ensures ok <==> Grouped(bits, k, Groups(|bits|, k))
    ensures ok ==> num <= BUFFER && buf[..num] == GroupsChars(bits, k, Groups(|bits|, k))
  {
    ghost var text := (g: nat) => GroupsChars(bits, k, g);
    assert Spelled(text, bits, k) by {
      forall g: nat ensures text(g + 1) == text(g) + GroupChars(bits, k, g) {
      }
    }
    num, ok := PrintAll(bits, k, Groups(|bits|, k), text, buf);
  }

  /** What is written, group by group. */
  ghost predicate Spelled(text: nat -> string, bits: Vec, k: nat)
    requires IsWide(k)
  {
    text(0) == [] && forall g: nat {:trigger GroupChars(bits, k, g)} :: text(g + 1) == text(g) + GroupChars(bits, k, g)
  }

  /** The loop over the groups, of which there are total. */
  method PrintAll(bits: Vec, k: nat, ghost total: nat, ghost text: nat -> string, buf: array<char>) returns (num: nat, ok: bool)
    requires IsWide(k) && |bits| <= BUFFER == buf.Length && total == Groups(|bits|, k) && Spelled(text, bits, k)
    modifies buf
    ensures ok <==> Grouped(bits, k, total)
    ensures ok ==> num <= BUFFER && buf[..num] == text(total)
  {
    var i := 0;
    ghost var g := 0;
    num := 0;
    while i < |bits|
      invariant i == Offset(g, k) && g <= total && num <= 2 * g && num <= buf.Length
      invariant buf[..num] == text(g) && Grouped(bits, k, g)
    {
      GroupsLeft(|bits|, k, g);
      num, ok := PutNext(bits, i, k, g, text, buf, num);
      if !ok {
        return;
      }
      i, g := i + k, g + 1;
    }
    GroupsLeft(|bits|, k, g);
    ok := true;
  }

  method PutNext(bits: Vec, i: nat, k: nat, ghost g: nat, ghost text: nat -> string, buf: array<char>, n: nat)
    returns (num: nat, ok: bool)
    requires IsWide(k) && i == Offset(g, k) && i < |bits| && n + 2 <= buf.Length && n <= 2 * g
    requires Grouped(bits, k, g) && Spelled(text, bits, k) && buf[..n] == text(g)
    modifies buf
    ensures ok <==> Grouped(bits, k, g + 1)
    ensures ok ==> num <= 2 * (g + 1) && num <= buf.Length && buf[..num] == text(g + 1)
  {
    var tb := TakeGroup(bits, i, k, g);
    num, ok := PutGroup(bits, tb, k, g, buf, n);
    if ok {
      GroupedFurther(bits, k, g);
    }
  }

  lemma GroupedFurther(bits: Vec, k: nat, g: nat)
    requires IsWide(k) && Grouped(bits, k, g) && !Mixed(bits, k, g)
    ensures Grouped(bits, k, g + 1)
  {
  }

  lemma GroupsLeft(w: nat, k: nat, g: nat)
    requires IsWide(k)
    ensures Offset(g, k) < w <==> g < Groups(w, k)
    ensures Offset(g, k) < w <= BUFFER ==> 2 * g + 2 <= BUFFER
  {
  }

  method PutGroup(ghost bits: Vec, tb: Vec, k: nat, ghost g: nat, buf: array<char>, n: nat) returns (num: nat, ok: bool)
    requires IsWide(k) && tb == Group(bits, k, g) && n + 2 <= buf.Length
    modifies buf
    ensures ok <==> !Mixed(bits, k, g)
    ensures ok ==> n <= num <= n + 2 && buf[..num] == old(buf[..n]) + GroupChars(bits, k, g)
  {
    num, ok := n, true;
    GroupFacts(bits, k, g);
    if Z in tb || X in tb {
      if !Same(tb) {
        return num, false;
      }
      buf[num] := if Z in tb then 'z' else 'x';
      num := num + 1;
    }
    if k == 3 || !(Z in tb || X in tb) {
      var x := ValueOf(tb);
      buf[num] := HexC(x);
      num := num + 1;
    }
  }

  /** The k bits from i on, filled up with zeros. */
  method TakeGroup(bits: Vec, i: nat, k: nat, ghost g: nat) returns (t: Vec)
    requires i == Offset(g, k)
    ensures t == Group(bits, k, g)
  {
    var tb := new Bit[k];
    for j := 0 to k
      invariant forall l :: 0 <= l < j ==> tb[l] == GroupBit(bits, k, g, l)
    {
      tb[j] := if i + j < |bits| then bits[i + j] else L;
    }
    t := tb[..];
  }

  method ValueOf(t: Vec) returns (x: nat)
    requires |t| <= 4
    ensures x == Value(t)
  {
    x := 0;
    var mask := 1;
    for j := 0 to |t|
      invariant x == ValueTo(t, j) && mask == Pow2(j)
    {
      if t[j] == H {
        x := x + mask;
      }
      mask := 2 * mask;
    }
  }

  lemma GroupFacts(bits: Vec, k: nat, g: nat)
    requires IsWide(k)
    ensures var t := Group(bits, k, g);
            && (Mixed(bits, k, g) <==> (Z in t || X in t) && !Same(t))
            && (!Mixed(bits, k, g) ==> (Unknown(GroupBit(bits, k, g, 0)) <==> Z in t || X in t))
            && (!Mixed(bits, k, g) && Unknown(GroupBit(bits, k, g, 0)) ==> Value(t) == 0)
            && (!Mixed(bits, k, g) ==> (GroupBit(bits, k, g, 0) == Z <==> Z in t))
  {
    var t := Group(bits, k, g);
    var b := GroupBit(bits, k, g, 0);
    assert t[0] == b;
    if !Same(t) {
      var j :| 0 <= j < k && t[j] != t[0];
      assert GroupBit(bits, k, g, j) != b;
    }
    if Z in t || X in t {
      var j :| 0 <= j < k && (t[j] == Z || t[j] == X);
      assert Unknown(GroupBit(bits, k, g, j));
    }
    if Same(t) && b != H {
      ValueOfNone(t, k);
    }
  }

  lemma {:induction false} ValueOfNone(t: Vec, j: nat)
    requires j <= |t| && forall i :: 0 <= i < |t| ==> t[i] != H
    ensures ValueTo(t, j) == 0
  {
    if j > 0 {
      ValueOfNone(t, j - 1);
    }
  }

  // ---- reading ----

  /** The place of the first format letter. */
  function Find(s: string, letter: char, i: nat): (n: nat)
    requires i <= |s|
    ensures i <= n <= |s|
    decreases |s| - i
  {
    if i < |s| && Lower(s[i]) != letter then Find(s, letter, i + 1) else i
  }

  /** What the lexer takes for a literal of this format: after the letter come digits, spaces and
      underscores. */
  predicate Lexed(s: string, letter: char, k: nat)
    requires k == 1 || IsWide(k)
  {
    var p := Find(s, letter, 0);
    p < |s| && forall i :: p < i < |s| ==> s[i] == '_' || s[i] == ' ' || CharBits(s[i], k) != []
  }

  /** The bits of the digits from the end of the text back to position first. */
  function AllBits(s: string, k: nat, first: nat, e: nat): Vec
    requires (k == 1 || IsWide(k)) && e <= |s|
  {
    if e <= first then [] else CharBits(s[e - 1], k) + AllBits(s, k, first, e - 1)
  }

  function Size(s: string): nat {
    var n := NumberTo(s, Digits(s, 0));
    if n == 0 || n > MAXBITS then MAXBITS else n
  }

  /** What a vector longer than its digits is filled up with. */
  function Filler(s: string, first: nat): Bit {
    if first < |s| && s[first] == 'x' then X
    else if first < |s| && (s[first] == 'z' || s[first] == '?') then Z
    else L
  }

  function Fit(v: Vec, size: nat, b: Bit): (r: Vec)
    ensures |r| == size
  {
    if |v| >= size then v[..size] else v + Repeat(b, size - |v|)
  }

  function BitsRead(s: string, letter: char, k: nat): Vec
    requires k == 1 || IsWide(k)
  {
    var first := Find(s, letter, 0) + 1;
    Fit(AllBits(s, k, first, |s|), Size(s), Filler(s, first))
  }

  /** The bits of a literal, by its format letter: the one after the quote. */
  function Parsed(s: string): Vec {
    var q := Find(s, '\'', 0) + 1;
    var c := if q < |s| then Lower(s[q]) else ' ';
    if c == 'b' then BitsRead(s, 'b', 1)
    else if c == 'h' then BitsRead(Lowered(s), 'h', 4)
    else BitsRead(Lowered(s), 'o', 3)
  }

  method ReadSize(s: string) returns (size: nat)
    ensures size == Size(s) && 1 <= size <= MAXBITS
  {
    size := Atoi(s);
    if size == 0 || size > MAXBITS {
      size := MAXBITS;
    }
  }

  method FindLetter(s: string, letter: char) returns (n: nat)
    ensures n == Find(s, letter, 0)
  {
    n := 0;
    while n < |s| && Lower(s[n]) != letter
      invariant n <= |s| && Find(s, letter, 0) == Find(s, letter, n)
    {
      n := n + 1;
    }
  }

  method Bin(instr: string, brep: array<Bit>) returns (size: nat)
    requires Lexed(instr, 'b', 1) && brep.Length >= MAXBITS
    modifies brep
    ensures size <= MAXBITS && brep[..size] == BitsRead(instr, 'b', 1)
  {
    size := ReadSize(instr);
    var first := FindLetter(instr, 'b');
    ReadBinary(instr, first + 1, brep, size);
  }

  method ReadBinary(s: string, first: nat, brep: array<Bit>, size: nat)
    requires first <= |s| && size <= brep.Length
    requires forall i :: first <= i < |s| ==> s[i] == '_' || s[i] == ' ' || CharBits(s[i], 1) != []
    modifies brep
    ensures brep[..size] == Fit(AllBits(s, 1, first, |s|), size, Filler(s, first))
  {
    ghost var all := AllBits(s, 1, first, |s|);
    var e, bpos := |s|, 0;
    while bpos < size && e > first
      invariant bpos <= size && first <= e <= |s|
      invariant all == brep[..bpos] + AllBits(s, 1, first, e)
    {
      bpos := ReadBit(s, first, e, brep, bpos, all);
      e := e - 1;
    }
    assert bpos < size ==> AllBits(s, 1, first, e) == [];
    FillUp(s, first, brep, bpos, size, all);
  }

  method ReadBit(s: string, ghost first: nat, e: nat, brep: array<Bit>, bpos: nat, ghost all: Vec) returns (next: nat)
    requires first < e <= |s| && bpos < brep.Length && all == brep[..bpos] + AllBits(s, 1, first, e)
    requires s[e - 1] == '_' || s[e - 1] == ' ' || CharBits(s[e - 1], 1) != []
    modifies brep
    ensures bpos <= next <= bpos + 1 && all == brep[..next] + AllBits(s, 1, first, e - 1)
  {
    NextChar(s, 1, first, e, brep[..bpos], all);
    next := bpos;
    if s[e - 1] != '_' && s[e - 1] != ' ' {
      PutBit(s[e - 1], brep, bpos);
      next := bpos + 1;
    }
  }

  lemma NextChar(s: string, k: nat, first: nat, e: nat, done: Vec, all: Vec)
    requires (k == 1 || IsWide(k)) && first < e <= |s| && all == done + AllBits(s, k, first, e)
    ensures all == (done + CharBits(s[e - 1], k)) + AllBits(s, k, first, e - 1)
    ensures CharBits(s[e - 1], k) == [] ==> done + CharBits(s[e - 1], k) == done
  {
    Assoc(done, CharBits(s[e - 1], k), AllBits(s, k, first, e - 1));
  }

  method PutBit(c: char, brep: array<Bit>, bpos: nat)
    requires bpos < brep.Length && CharBits(c, 1) != []
    modifies brep
    ensures brep[..bpos + 1] == old(brep[..bpos]) + CharBits(c, 1)
  {
    match c {
      case '0' => brep[bpos] := L;
      case '1' => brep[bpos] := H;
      case 'z' => brep[bpos] := Z;
      case 'Z' => brep[bpos] := Z;
      case '?' => brep[bpos] := Z;
      case 'x' => brep[bpos] := X;
      case _ => brep[bpos] := X;
    }
    assert CharBits(c, 1) == [brep[bpos]];
  }

  /** The bits that no digit has given. */
  method FillUp(s: string, first: nat, brep: array<Bit>, n: nat, size: nat, ghost all: Vec)
    requires n <= size <= brep.Length && brep[..n] <= all && (n < size ==> brep[..n] == all)
    modifies brep
    ensures brep[..size] == Fit(all, size, Filler(s, first))
  {
    var bpos := n;
    while bpos < size
      invariant n <= bpos <= size && brep[..n] == old(brep[..n])
      invariant forall i :: n <= i < bpos ==> brep[i] == Filler(s, first)
    {
      if first < |s| && s[first] == 'x' {
        brep[bpos] := X;
      } else if first < |s| && (s[first] == 'z' || s[first] == '?') {
        brep[bpos] := Z;
      } else {
        brep[bpos] := L;
      }
      bpos := bpos + 1;
    }
  }

  method Utol(s: string) returns (r: string)
    ensures r == Lowered(s)
  {
    r := "";
    for i := 0 to |s|
      invariant r == Lowered(s)[..i]
    {
      r := r + [if 'A' <= s[i] <= 'Z' then (s[i] as int - 'A' as int + 'a' as int) as char else s[i]];
    }
  }

  method Oct(instr: string, brep: array<Bit>) returns (size: nat)
    requires Lexed(Lowered(instr), 'o', 3) && brep.Length >= MAXBITS
    modifies brep
    ensures size <= MAXBITS && brep[..size] == BitsRead(Lowered(instr), 'o', 3)
  {
    var s := Utol(instr);
    size := ReadSize(s);
    var first := FindLetter(s, 'o');
    ReadDigits(s, first + 1, 3, brep, size);
  }

  method Hex(instr: string, brep: array<Bit>) returns (size: nat)
    requires Lexed(Lowered(instr), 'h', 4) && brep.Length >= MAXBITS
    modifies brep
    ensures size <= MAXBITS && brep[..size] == BitsRead(Lowered(instr), 'h', 4)
  {
    var s := Utol(instr);
    size := ReadSize(s);
    var first := FindLetter(s, 'h');
    ReadDigits(s, first + 1, 4, brep, size);
  }

  /** The common loop of the octal and the hexadecimal reader. */
  method ReadDigits(s: string, first: nat, k: nat, brep: array<Bit>, size: nat)
    requires IsWide(k) && first <= |s| && size <= brep.Length
    requires forall i :: first <= i < |s| ==> s[i] == '_' || s[i] == ' ' || CharBits(s[i], k) != []
    modifies brep
    ensures brep[..size] == Fit(AllBits(s, k, first, |s|), size, Filler(s, first))
  {
    ghost var all := AllBits(s, k, first, |s|);
    var e, bpos := |s|, 0;
    while bpos < size && e > first
      invariant bpos <= size && first <= e <= |s| && brep[..bpos] <= all
      invariant bpos < size ==> all == brep[..bpos] + AllBits(s, k, first, e)
    {
      ghost var done, bits, rest := brep[..bpos], CharBits(s[e - 1], k), AllBits(s, k, first, e - 1);
      NextChar(s, k, first, e, done, all);
      if s[e - 1] != '_' && s[e - 1] != ' ' {
        PartOfDigit(done, bits, rest, if bpos + k < size then k else size - bpos);
        bpos := PutDigit(s[e - 1], k, brep, bpos, size);
      }
      e := e - 1;
    }
    assert bpos < size ==> AllBits(s, k, first, e) == [];
    FillUp(s, first, brep, bpos, size, all);
  }

  /** The bits of one digit, as many as there is room for. */
  method PutDigit(c: char, k: nat, brep: array<Bit>, n: nat, size: nat) returns (bpos: nat)
    requires IsWide(k) && n < size <= brep.Length && CharBits(c, k) != []
    modifies brep
    ensures bpos == (if n + k < size then n + k else size)
    ensures brep[..bpos] == old(brep[..n]) + CharBits(c, k)[..bpos - n]
  {
    bpos := n;
    for i := 0 to k
      invariant bpos == if n + i < size then n + i else size
      invariant brep[..n] == old(brep[..n])
      invariant forall j :: 0 <= j < bpos - n ==> brep[n + j] == CharBits(c, k)[j]
    {
      if bpos < size {
        brep[bpos] := DigitBit(c, k, i);
        bpos := bpos + 1;
      }
    }
  }

  lemma PartOfDigit(done: Vec, bits: Vec, rest: Vec, m: nat)
    requires m <= |bits| || bits == []
    ensures bits != [] ==> done + bits[..m] <= (done + bits) + rest
    ensures m == |bits| ==> done + bits[..m] == done + bits
  {
  }

  /** Bit i of a digit. */
  function DigitBit(c: char, k: nat, i: nat): (b: Bit)
    requires IsWide(k) && i < k && CharBits(c, k) != []
    ensures b == CharBits(c, k)[i]
  {
    if c == 'x' then X
    else if c == 'z' || c == '?' then Z
    else if IsDigit(c) then if HexNum(c as int - '0' as int)[3 - i] == '1' then H else L
    else if HexNum(c as int - 'a' as int + 10)[3 - i] == '1' then H else L
  }
}
