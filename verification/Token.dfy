/** The license server's reply: how the server hides its verdict in a block of random bytes, and
    how the client finds it again. */
module Token {

  type Byte = x: int | 0 <= x < 256

  type Sum = s: seq<Byte> | |s| == 16 witness seq(16, _ => 0)

  /** The checksum of a block of bytes. Nothing is assumed of it but its length. */
  type Digest = seq<Byte> -> Sum

  const OK := 0
  const NOLIC := 1
  const NOTLIC := 5
  const USRLIM := 7
  const UNKNOWN := 8

  /** The smallest reply: eight index bytes, the sum, the verdict and a last byte. */
  const SMALLEST := 27

  function Twisted1(b: Byte): Byte {
    if b < 127 then b + 1 else if b == 127 then 0 else b
  }

  /** The sum backwards, each byte twisted. */
  function Twisted(s: Sum): (r: Sum)
    ensures forall i :: 0 <= i < 16 ==> r[15 - i] == Twisted1(s[i])
  {
    seq(16, i requires 0 <= i < 16 => Twisted1(s[15 - i]))
  }

  method Twist(sum: Sum) returns (nsum: Sum)
    ensures nsum == Twisted(sum)
  {
    var a := new Byte[16](_ => 0);
    for i := 0 to 16
      invariant forall j :: 16 - i <= j < 16 ==> a[j] == Twisted(sum)[j]
    {
      if sum[i] < 127 {
        a[15 - i] := sum[i] + 1;
      } else if sum[i] == 127 {
        a[15 - i] := 0;
      } else {
        a[15 - i] := sum[i];
      }
    }
    nsum := a[..];
  }

  /** Different sums stay different. */
  lemma TwistedIsInjective(s: Sum, t: Sum)
    requires Twisted(s) == Twisted(t)
    ensures s == t
  {
    forall i | 0 <= i < 16 ensures s[i] == t[i] {
      assert Twisted(s)[15 - i] == Twisted1(s[i]) && Twisted(t)[15 - i] == Twisted1(t[i]);
    }
  }

  function Total(b: seq<Byte>, n: nat): nat
    requires n <= |b|
  {
    if n == 0 then 0 else Total(b, n - 1) + b[n - 1]
  }

  /** Where the sum lies, by the first eight bytes: after them and before the verdict. */
  function Index(b: seq<Byte>): (i: nat)
    requires |b| >= SMALLEST
    ensures 8 <= i && i + 16 <= |b| - 2
  {
    Total(b, 8) % (|b| - 26) + 8
  }

  method FindIndex(b: array<Byte>) returns (i: nat)
    requires b.Length >= SMALLEST
    ensures i == Index(b[..])
  {
    var s := 0;
    for k := 0 to 8
      invariant s == Total(b[..], k)
    {
      s := s + b[k];
    }
    s := s % (b.Length - 26);
    i := s + 8;
  }

  /** Noise with the sum and the verdict put in. */
  function Hidden(noise: seq<Byte>, sum: Sum, verdict: nat): (r: seq<Byte>)
    requires |noise| >= SMALLEST
    ensures |r| == |noise|
  {
    var i := Index(noise);
    (noise[..i] + sum + noise[i + 16..])[|noise| - 2 := verdict % 256]
  }

  /** Create a return token in buf. */
  method Frand(buf: array<Byte>, noise: seq<Byte>, sum: Sum, verdict: nat)
    requires buf.Length == |noise| >= SMALLEST
    modifies buf
    ensures buf[..] == Hidden(noise, sum, verdict)
  {
    for k := 0 to buf.Length
      invariant buf[..k] == noise[..k]
    {
      buf[k] := noise[k];
    }
    assert buf[..] == noise;
    var i := FindIndex(buf);
    PutSum(buf, noise, i, sum);
    buf[buf.Length - 2] := verdict % 256;
  }

  /** The noise with the first j bytes of the sum at place i. */
  function Spread(noise: seq<Byte>, i: nat, sum: Sum, j: nat): (r: seq<Byte>)
    requires j <= 16 && i + 16 <= |noise|
    ensures |r| == |noise|
  {
    noise[..i] + sum[..j] + noise[i + j..]
  }

  method PutSum(buf: array<Byte>, ghost noise: seq<Byte>, i: nat, sum: Sum)
    requires buf[..] == noise && i + 16 <= buf.Length
    modifies buf
    ensures buf[..] == Spread(noise, i, sum, 16)
  {
    assert Spread(noise, i, sum, 0) == noise;
    for j := 0 to 16
      invariant buf[..] == Spread(noise, i, sum, j)
    {
      PutOne(noise, i, sum, j);
      ghost var next := buf[..][i + j := sum[j]];
      buf[i + j] := sum[j];
      assert buf[..] == next;
    }
  }

  lemma PutOne(noise: seq<Byte>, i: nat, sum: Sum, j: nat)
    requires j < 16 && i + 16 <= |noise|
    ensures Spread(noise, i, sum, j)[i + j := sum[j]] == Spread(noise, i, sum, j + 1)
  {
  }

  /** The verdicts that the server sends as they are; others become the unknown error. */
  function Verdict(ok: bool, ret: nat): nat {
    if ok then ret else if NOLIC <= ret <= USRLIM then ret else UNKNOWN
  }

  /** The reply to a request: a pass carries the twisted sum of the request, a failure the plain one. */
  function Answer(md5: Digest, request: seq<Byte>, ok: bool, ret: nat, noise: seq<Byte>): (r: seq<Byte>)
    requires |noise| == |request| >= SMALLEST
    ensures |r| == |request|
  {
    Hidden(noise, if ok then Twisted(md5(request)) else md5(request), Verdict(ok, ret))
  }

  /** The request is overwritten with the reply. */
  method AckSend(md5: Digest, c: array<Byte>, ok: bool, ret: nat, noise: seq<Byte>)
    requires c.Length == |noise| >= SMALLEST
    modifies c
    ensures c[..] == Answer(md5, old(c[..]), ok, ret, noise)
  {
    var sum := md5(c[..]);
    var nsum, verdict := sum, ret;
    if ok {
      nsum := Twist(sum);
    } else if !(NOLIC <= ret <= USRLIM) {
      verdict := UNKNOWN;
    }
    Frand(c, noise, nsum, verdict);
  }

  /** What the client makes of a reply. */
  function Decoded(md5: Digest, request: seq<Byte>, reply: seq<Byte>): nat
    requires |reply| >= SMALLEST
  {
    var i, verdict := Index(reply), reply[|reply| - 2];
    if verdict == 0 && reply[i..i + 16] != Twisted(md5(request)) then NOTLIC else verdict
  }

  method Unwind(md5: Digest, cref: array<Byte>, c: array<Byte>) returns (ret: nat)
    requires c.Length >= SMALLEST
    ensures ret == Decoded(md5, cref[..], c[..])
  {
    var nsum := Twist(md5(cref[..]));
    var i := FindIndex(c);
    var sum := new Byte[16](_ => 0);
    for j := 0 to 16
      invariant forall k :: 0 <= k < j ==> sum[k] == c[i + k]
    {
      sum[j] := c[i + j];
    }
    ret := c[c.Length - 2];
    assert sum[..] == c[..][i..i + 16];
    if ret == 0 && sum[..] != nsum {
      return NOTLIC;
    }
  }

  // ---- the two sides together ----

  lemma {:induction false} TotalOfPrefix(a: seq<Byte>, b: seq<Byte>, n: nat)
    requires n <= |a| && n <= |b| && a[..n] == b[..n]
    ensures Total(a, n) == Total(b, n)
  {
    if n > 0 {
      assert a[..n - 1] == a[..n][..n - 1] == b[..n][..n - 1] == b[..n - 1];
      assert a[n - 1] == a[..n][n - 1] == b[..n][n - 1] == b[n - 1];
      TotalOfPrefix(a, b, n - 1);
    }
  }

  /** Putting the sum and the verdict in does not disturb the index bytes, nor each other. */
  lemma HiddenIsFound(noise: seq<Byte>, sum: Sum, verdict: nat)
    requires |noise| >= SMALLEST
    ensures var r := Hidden(noise, sum, verdict);
            Index(r) == Index(noise) && r[Index(r)..Index(r) + 16] == sum && r[|r| - 2] == verdict % 256
  {
    var r, i := Hidden(noise, sum, verdict), Index(noise);
    var filled := noise[..i] + sum + noise[i + 16..];
    assert r[..8] == filled[..8] == noise[..8];
    TotalOfPrefix(r, noise, 8);
    assert filled[i..i + 16] == sum;
    assert r[i..i + 16] == filled[i..i + 16];
  }

  /** For every request and whatever the noise, the client reads exactly the server's verdict. */
  lemma ClientReadsVerdict(md5: Digest, request: seq<Byte>, ok: bool, ret: nat, noise: seq<Byte>)
    requires |noise| == |request| >= SMALLEST && (ok <==> ret == OK)
    ensures Decoded(md5, request, Answer(md5, request, ok, ret, noise)) == Verdict(ok, ret)
    ensures Decoded(md5, request, Answer(md5, request, ok, ret, noise)) == OK <==> ok
  {
    HiddenDecodes(md5, request, noise, if ok then Twisted(md5(request)) else md5(request), Verdict(ok, ret));
  }

  /** A verdict is read as it is, but a pass only with the right sum. */
  lemma HiddenDecodes(md5: Digest, request: seq<Byte>, noise: seq<Byte>, sum: Sum, verdict: nat)
    requires |noise| >= SMALLEST && verdict < 256
    ensures Decoded(md5, request, Hidden(noise, sum, verdict)) ==
            if verdict == 0 && sum != Twisted(md5(request)) then NOTLIC else verdict
  {
    HiddenIsFound(noise, sum, verdict);
  }

  /** A pass for a request is no pass for one with another checksum. */
  lemma PassIsForOneSum(md5: Digest, request: seq<Byte>, other: seq<Byte>, noise: seq<Byte>)
    requires |noise| == |request| >= SMALLEST && md5(request) != md5(other)
    ensures Decoded(md5, other, Answer(md5, request, true, OK, noise)) == NOTLIC
  {
    HiddenDecodes(md5, other, noise, Twisted(md5(request)), OK);
    if Twisted(md5(request)) == Twisted(md5(other)) {
      TwistedIsInjective(md5(request), md5(other));
    }
  }

  /** A refused client sees the server's own code for the seven known errors, and the unknown one for
      anything else; a pass is a zero. */
  lemma CodesArrive(md5: Digest, request: seq<Byte>, ret: nat, noise: seq<Byte>)
    requires |noise| == |request| >= SMALLEST
    ensures Decoded(md5, request, Answer(md5, request, ret == 0, ret, noise)) == if ret <= 7 then ret else 8
  {
    ClientReadsVerdict(md5, request, ret == 0, ret, noise);
  }

  function FirstEight(b: seq<Byte>): nat
    requires |b| >= 8
  {
    (b[0] as int) + (b[1] as int) + (b[2] as int) + (b[3] as int)
    + (b[4] as int) + (b[5] as int) + (b[6] as int) + (b[7] as int)
  }

  /** What a reply holds, byte by byte: the sum at the place that the first eight bytes give, the
      verdict next to last, and noise everywhere else. */
  lemma LayoutIs(noise: seq<Byte>, sum: Sum, verdict: nat)
    requires |noise| >= SMALLEST
    ensures var i, r := 8 + FirstEight(noise) % (|noise| - 26), Hidden(noise, sum, verdict);
      && i + 16 <= |noise| - 2
      && forall k :: 0 <= k < |noise| ==>
           r[k] == if k == |noise| - 2 then verdict % 256 else if i <= k < i + 16 then sum[k - i] else noise[k]
  {
    var t := FirstEight(noise);
    forall k: nat | 0 < k < 9 ensures Total(noise, k) == Total(noise, k - 1) + (noise[k - 1] as int) {
    }
    assert Total(noise, 8) == t;
  }

  /** The sum of a pass: backwards, with every byte below 127 one higher, 127 turned to 0, and others as
      they are. */
  lemma TwistIs(sum: Sum, k: nat)
    requires k < 16
    ensures (Twisted(sum)[k] as int) ==
            if sum[15 - k] == 127 then 0 else if sum[15 - k] > 127 then sum[15 - k] as int else (sum[15 - k] as int) + 1
  {
    assert Twisted(sum)[15 - (15 - k)] == Twisted1(sum[15 - k]);
  }
}
