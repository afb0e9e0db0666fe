/** The hash table of named objects, and the sets of names built on it. */
module SymbolTable {
  import opened Basics

  /** A character of a key: a signed byte, never the terminating zero. */
  type Char = c: int | -128 <= c < 128 && c != 0 witness 1

  type Key = seq<Char>

  const MIN := -0x8000_0000
  const INITIAL_BINS := 11
  const MAX_DENSITY := 5

  // ---- the hash, in 32-bit arithmetic ----

  function Wrap(x: int): int {
    (x + 0x8000_0000) % 0x1_0000_0000 - 0x8000_0000
  }

  /** What is left of a when m has been taken from it, toward zero, as often as possible. */
  function Rem(a: int, m: nat): int
    requires m > 0
    decreases if a < 0 then -a else a
  {
    if a >= m then Rem(a - m, m) else if a <= 0 - m then Rem(a + m, m) else a
  }

  /** The remainder of a division that truncates. */
  lemma {:induction false} RemTruncates(a: int, m: nat)
    requires m > 0
    ensures Rem(a, m) == if a >= 0 then a % m else -(-a % m)
    decreases if a < 0 then -a else a
  {
    if a >= m {
      RemTruncates(a - m, m);
      ModLess(a, m);
    } else if a <= 0 - m {
      RemTruncates(a + m, m);
      ModLess(-a, m);
    } else {
      SmallMod(if a < 0 then -a else a, m);
    }
  }

  lemma ModLess(a: nat, m: nat)
    requires 0 < m <= a
    ensures a % m == (a - m) % m
  {
    var q, r := (a - m) / m, (a - m) % m;
    assert a == (q + 1) * m + r;
    UniqueRest(a, m, q + 1, r);
  }

  lemma SmallMod(a: nat, m: nat)
    requires a < m
    ensures a % m == a
  {
  }

  lemma UniqueRest(a: nat, m: nat, q: nat, r: nat)
    requires r < m && a == q * m + r
    ensures a % m == r
  {
    var p, t := a / m, a % m;
    assert (q - p) * m == t - r;
    if q > p {
      LeastProduct(m, q - p);
    } else if q < p {
      LeastProduct(m, p - q);
    }
  }

  /** The hash value of the first n characters. */
  function HashTo(key: Key, n: nat): int
    requires n <= |key|
  {
    if n == 0 then 0 else Wrap(HashTo(key, n - 1) * 997 + key[n - 1])
  }

  function Hash(key: Key): int {
    HashTo(key, |key|)
  }

  function BinOf(key: Key, modulus: nat): int
    requires modulus > 0
  {
    Rem(if Hash(key) < 0 then Wrap(-Hash(key)) else Hash(key), modulus)
  }

  method DoHash(key: Key, modulus: nat) returns (h: int)
    requires modulus > 0
    ensures h == BinOf(key, modulus)
  {
    var val := 0;
    for i := 0 to |key|
      invariant val == HashTo(key, i)
    {
      val := Wrap(val * 997 + key[i]);
    }
    if val < 0 {
      val := Wrap(-val);
    }
    h := if val >= 0 then val % modulus else -(-val % modulus);
    RemTruncates(val, modulus);
  }

  /** The keys whose hash value can be negated. */
  predicate Hashable(key: Key) {
    Hash(key) != MIN
  }

  predicate PowerOfTwo(p: nat) {
    p == 1 || (p > 1 && p % 2 == 0 && PowerOfTwo(p / 2))
  }

  lemma {:induction false} OddDividesNoPower(m: nat, q: nat, p: nat)
    requires m % 2 == 1 && m > 1 && PowerOfTwo(p)
    ensures m * q != p
  {
    if q % 2 == 1 {
      OddTimesOdd(m, q);
      LeastProduct(m, q);
    } else {
      EvenFactor(m, q);
      if p > 1 {
        OddDividesNoPower(m, q / 2, p / 2);
      }
    }
  }

  lemma EvenFactor(m: nat, q: nat)
    requires q % 2 == 0
    ensures m * q == 2 * (m * (q / 2))
  {
    var h := q / 2;
    assert m * q == m * (2 * h) == 2 * (m * h);
  }

  lemma LeastProduct(m: nat, q: nat)
    requires q > 0
    ensures m * q >= m
  {
  }

  lemma OddTimesOdd(m: nat, q: nat)
    requires m % 2 == 1 && q % 2 == 1
    ensures (m * q) % 2 == 1
  {
    var h := m / 2;
    assert m * q == 2 * (h * q) + q;
  }

  lemma HashIsWord(key: Key, n: nat)
    requires n <= |key|
    ensures MIN <= HashTo(key, n) < 0x8000_0000
  {
  }

  /** The bin index lies in the table exactly for the keys whose hash value can be negated, whatever
      the number of bins, which is odd. */
  lemma {:induction false} BinInTableExactly(key: Key, bins: nat)
    requires bins % 2 == 1 && bins > 1
    ensures 0 <= BinOf(key, bins) < bins <==> Hashable(key)
  {
    HashIsWord(key, |key|);
    var h := Hash(key);
    if h == MIN {
      MinIsNoMultiple(bins);
      NegativeRem(bins);
    } else {
      SmallRem(if h < 0 then -h else h, bins);
    }
  }

  lemma Doubled(p: nat)
    requires PowerOfTwo(p)
    ensures PowerOfTwo(2 * p)
  {
    assert 2 * p / 2 == p;
  }

  lemma TimesSixteen(p: nat)
    requires PowerOfTwo(p)
    ensures PowerOfTwo(16 * p)
  {
    Doubled(p);
    Doubled(2 * p);
    Doubled(4 * p);
    Doubled(8 * p);
  }

  lemma MinIsPower()
    ensures PowerOfTwo(0x8000_0000)
  {
    assert PowerOfTwo(8);
    TimesSixteen(8);
    TimesSixteen(0x80);
    TimesSixteen(0x800);
    TimesSixteen(0x8000);
    TimesSixteen(0x8_0000);
    TimesSixteen(0x80_0000);
    TimesSixteen(0x800_0000);
  }

  lemma MinIsNoMultiple(bins: nat)
    requires bins % 2 == 1 && bins > 1
    ensures bins * (0x8000_0000 / bins) != 0x8000_0000
  {
    MinIsPower();
    OddDividesNoPower(bins, 0x8000_0000 / bins, 0x8000_0000);
  }

  lemma SmallRem(h: nat, bins: nat)
    requires bins > 0 && h < 0x8000_0000
    ensures Wrap(h) == h && 0 <= Rem(h, bins) < bins
  {
    RemTruncates(h, bins);
  }

  lemma NegativeRem(bins: nat)
    requires bins > 0 && bins * (0x8000_0000 / bins) != 0x8000_0000
    ensures Wrap(-MIN) == MIN && Rem(MIN, bins) < 0
  {
    RemTruncates(MIN, bins);
  }

  /** The key "knmszha", for which the index falls before the first bin. */
  const TRAP: Key := [107, 110, 109, 115, 122, 104, 97]

  lemma TrapFallsOutside()
    ensures !Hashable(TRAP) && BinOf(TRAP, INITIAL_BINS) < 0
  {
    HashOfTrap();
    BinInTableExactly(TRAP, INITIAL_BINS);
    NegativeRem(INITIAL_BINS);
  }

  lemma HashOfTrap()
    ensures Hash(TRAP) == MIN
  {
    var k := TRAP;
    assert HashTo(k, 3) == 106468742 by {
      assert HashTo(k, 1) == 107;
      assert HashTo(k, 2) == 106789;
    }
    assert HashTo(k, 4) == -1224846511;
    assert HashTo(k, 5) == -1401259281;
    assert HashTo(k, 6) == -1191131853;
  }

  // ---- what the bins hold ----

  datatype Entry<V> = Entry(key: Key, record: V)

  type Bins<V> = seq<seq<Entry<V>>>

  predicate Sized<V>(bs: Bins<V>) {
    |bs| % 2 == 1 && |bs| > 1
  }

  /** A bin holds entries of the map that belong in it, each key once. */
  ghost predicate GoodBin<V>(bin: seq<Entry<V>>, b: int, size: nat, m: map<Key, V>)
    requires size > 0
  {
    && (forall j {:trigger Held(bin[j], b, size, m)} :: 0 <= j < |bin| ==> Held(bin[j], b, size, m))
    && (forall i, j :: 0 <= i < j < |bin| ==> bin[i].key != bin[j].key)
  }

  ghost predicate Held<V>(e: Entry<V>, b: int, size: nat, m: map<Key, V>)
    requires size > 0
  {
    && Hashable(e.key) && BinOf(e.key, size) == b
    && e.key in m && m[e.key] == e.record
  }

  /** The key's bin has an entry for it. */
  ghost predicate Filed<V>(bs: Bins<V>, k: Key)
    requires Sized(bs)
  {
    Hashable(k) && 0 <= BinOf(k, |bs|) < |bs| && Occurs(bs[BinOf(k, |bs|)], k)
  }

  ghost predicate Occurs<V>(bin: seq<Entry<V>>, k: Key) {
    exists j :: 0 <= j < |bin| && bin[j].key == k
  }

  /** The bins hold the items of the map, and nothing else. */
  ghost predicate Represents<V>(bs: Bins<V>, m: map<Key, V>) {
    && Sized(bs)
    && (forall b {:trigger GoodBin(bs[b], b, |bs|, m)} :: 0 <= b < |bs| ==> GoodBin(bs[b], b, |bs|, m))
    && (forall k {:trigger Filed(bs, k)} :: k in m ==> Filed(bs, k))
  }

  lemma LongerBin<V>(bin: seq<Entry<V>>, b: int, size: nat, m: map<Key, V>, e: Entry<V>)
    requires size > 0 && GoodBin(bin, b, size, m) && e.key !in m && Hashable(e.key) && BinOf(e.key, size) == b
    ensures GoodBin([e] + bin, b, size, m[e.key := e.record])
  {
    var longer, m' := [e] + bin, m[e.key := e.record];
    forall j | 0 <= j < |longer| ensures Held(longer[j], b, size, m') {
      assert j > 0 ==> Held(bin[j - 1], b, size, m);
    }
    forall i, j | 0 <= i < j < |longer| ensures longer[i].key != longer[j].key {
      assert Held(bin[j - 1], b, size, m);
    }
  }

  lemma SameBin<V>(bin: seq<Entry<V>>, b: int, size: nat, m: map<Key, V>, e: Entry<V>)
    requires size > 0 && GoodBin(bin, b, size, m) && e.key !in m
    ensures GoodBin(bin, b, size, m[e.key := e.record])
  {
    forall j | 0 <= j < |bin| ensures Held(bin[j], b, size, m[e.key := e.record]) {
      assert Held(bin[j], b, size, m);
    }
  }

  lemma OccursInLonger<V>(bin: seq<Entry<V>>, e: Entry<V>, k: Key)
    ensures Occurs([e] + bin, k) <==> e.key == k || Occurs(bin, k)
  {
    var longer := [e] + bin;
    assert longer[0] == e;
    if Occurs(bin, k) {
      var j :| 0 <= j < |bin| && bin[j].key == k;
      assert longer[j + 1].key == k;
    }
    if Occurs(longer, k) {
      var j :| 0 <= j < |longer| && longer[j].key == k;
      assert j > 0 ==> bin[j - 1].key == k;
    }
  }

  /** A new key in front of its bin. */
  lemma Pushed<V>(bs: Bins<V>, m: map<Key, V>, e: Entry<V>, b: nat)
    requires Represents(bs, m) && e.key !in m && Hashable(e.key)
    requires b == BinOf(e.key, |bs|) < |bs|
    ensures Represents(bs[b := [e] + bs[b]], m[e.key := e.record])
  {
    var bs', m' := bs[b := [e] + bs[b]], m[e.key := e.record];
    forall c | 0 <= c < |bs'| ensures GoodBin(bs'[c], c, |bs'|, m') {
      assert GoodBin(bs[c], c, |bs|, m);
      if c == b {
        LongerBin(bs[b], b, |bs|, m, e);
      } else {
        SameBin(bs[c], c, |bs|, m, e);
      }
    }
    forall k | k in m' ensures Filed(bs', k) {
      OccursInLonger(bs[b], e, k);
      assert k != e.key ==> Filed(bs, k);
    }
  }

  /** A new record for a key that is there. */
  lemma Rewritten<V>(bs: Bins<V>, m: map<Key, V>, b: nat, j: nat, v: V)
    requires Represents(bs, m) && b < |bs| && j < |bs[b]|
    ensures bs[b][j].key in m
    ensures Represents(bs[b := bs[b][j := Entry(bs[b][j].key, v)]], m[bs[b][j].key := v])
  {
    var key := bs[b][j].key;
    assert GoodBin(bs[b], b, |bs|, m) && Held(bs[b][j], b, |bs|, m);
    var bs', m' := bs[b := bs[b][j := Entry(key, v)]], m[key := v];
    forall c | 0 <= c < |bs'| ensures GoodBin(bs'[c], c, |bs'|, m') {
      assert GoodBin(bs[c], c, |bs|, m);
      forall i | 0 <= i < |bs'[c]| ensures Held(bs'[c][i], c, |bs'|, m') {
        assert Held(bs[c][i], c, |bs|, m);
      }
    }
    forall k | k in m' ensures Filed(bs', k) {
      assert Filed(bs, k);
      var i :| 0 <= i < |bs[BinOf(k, |bs|)]| && bs[BinOf(k, |bs|)][i].key == k;
      assert bs'[BinOf(k, |bs|)][i].key == k;
    }
  }

  /** An entry taken out of its bin. */
  lemma Cut<V>(bs: Bins<V>, m: map<Key, V>, b: nat, j: nat)
    requires Represents(bs, m) && b < |bs| && j < |bs[b]|
    ensures Represents(bs[b := bs[b][..j] + bs[b][j + 1..]], m - {bs[b][j].key})
  {
    var key := bs[b][j].key;
    assert GoodBin(bs[b], b, |bs|, m) && Held(bs[b][j], b, |bs|, m);
    var bs', m' := bs[b := bs[b][..j] + bs[b][j + 1..]], m - {key};
    forall c | 0 <= c < |bs'| ensures GoodBin(bs'[c], c, |bs'|, m') {
      assert GoodBin(bs[c], c, |bs|, m);
      forall i | 0 <= i < |bs'[c]| ensures Held(bs'[c][i], c, |bs'|, m') {
        assert Held(bs[c][if c == b && i >= j then i + 1 else i], c, |bs|, m);
      }
    }
    forall k | k in m' ensures Filed(bs', k) {
      assert Filed(bs, k);
      var c := BinOf(k, |bs|);
      var i :| 0 <= i < |bs[c]| && bs[c][i].key == k;
      assert bs'[c][if c == b && i > j then i - 1 else i].key == k;
    }
  }

  /** An absent key is in no bin, and a key found in a bin is present. */
  lemma PresentWhenFiled<V>(bs: Bins<V>, m: map<Key, V>, k: Key)
    requires Represents(bs, m) && Hashable(k) && 0 <= BinOf(k, |bs|) < |bs|
    ensures k in m <==> Occurs(bs[BinOf(k, |bs|)], k)
  {
    var b := BinOf(k, |bs|);
    if Occurs(bs[b], k) {
      var j :| 0 <= j < |bs[b]| && bs[b][j].key == k;
      assert GoodBin(bs[b], b, |bs|, m) && Held(bs[b][j], b, |bs|, m);
    }
    if k in m {
      assert Filed(bs, k);
    }
  }

  // ---- reading the bins out ----

  /** The entries of the bins from i on, in order. */
  function Listing<V>(bs: Bins<V>, i: nat): seq<Entry<V>>
    decreases |bs| - i
  {
    if i >= |bs| then [] else bs[i] + Listing(bs, i + 1)
  }

  /** The map that the first n entries describe. */
  function Told<V>(es: seq<Entry<V>>, n: nat): map<Key, V>
    requires n <= |es|
  {
    if n == 0 then map[] else Told(es, n - 1)[es[n - 1].key := es[n - 1].record]
  }

  predicate Distinct<V>(es: seq<Entry<V>>) {
    forall a, b :: 0 <= a < b < |es| ==> es[a].key != es[b].key
  }

  ghost predicate ListsFrom<V>(es: seq<Entry<V>>, bs: Bins<V>, i: nat, m: map<Key, V>)
    requires Sized(bs)
  {
    && (forall a :: 0 <= a < |es| ==> BinOf(es[a].key, |bs|) >= i && es[a].key in m && m[es[a].key] == es[a].record)
    && Distinct(es)
    && (forall k :: k in m && BinOf(k, |bs|) >= i ==> Occurs(es, k))
  }

  lemma {:induction false} ListingLists<V>(bs: Bins<V>, i: nat, m: map<Key, V>)
    requires Represents(bs, m)
    ensures ListsFrom(Listing(bs, i), bs, i, m)
    decreases |bs| - i
  {
    if i >= |bs| {
      forall k | k in m ensures BinOf(k, |bs|) < i {
        assert Filed(bs, k);
      }
    } else {
      var rest, es := Listing(bs, i + 1), Listing(bs, i);
      ListingLists(bs, i + 1, m);
      assert GoodBin(bs[i], i, |bs|, m);
      forall a | 0 <= a < |es|
        ensures BinOf(es[a].key, |bs|) >= i && es[a].key in m && m[es[a].key] == es[a].record
        ensures a < |bs[i]| ==> BinOf(es[a].key, |bs|) == i
      {
        if a < |bs[i]| {
          assert es[a] == bs[i][a] && Held(bs[i][a], i, |bs|, m);
        } else {
          assert es[a] == rest[a - |bs[i]|];
        }
      }
      forall a, b | 0 <= a < b < |es| ensures es[a].key != es[b].key {
        if b < |bs[i]| {
          assert bs[i][a].key != bs[i][b].key;
        } else {
          assert es[b] == rest[b - |bs[i]|];
          if a >= |bs[i]| {
            assert es[a] == rest[a - |bs[i]|];
          }
        }
      }
      forall k | k in m && BinOf(k, |bs|) >= i ensures Occurs(es, k) {
        assert Filed(bs, k);
        if BinOf(k, |bs|) == i {
          var j :| 0 <= j < |bs[i]| && bs[i][j].key == k;
          assert es[j].key == k;
        } else {
          assert Occurs(rest, k);
          var j :| 0 <= j < |rest| && rest[j].key == k;
          assert es[|bs[i]| + j].key == k;
        }
      }
    }
  }

  lemma {:induction false} ToldHas<V>(es: seq<Entry<V>>, n: nat, k: Key)
    requires n <= |es|
    ensures k in Told(es, n) <==> Occurs(es[..n], k)
  {
    if n > 0 {
      ToldHas(es, n - 1, k);
      var shorter, longer := es[..n - 1], es[..n];
      assert longer[n - 1] == es[n - 1];
      if Occurs(shorter, k) {
        var a :| 0 <= a < n - 1 && shorter[a].key == k;
        assert longer[a].key == k;
      }
      if Occurs(longer, k) {
        var a :| 0 <= a < n && longer[a].key == k;
        assert a < n - 1 ==> shorter[a].key == k;
      }
    }
  }

  lemma {:induction false} ToldSize<V>(es: seq<Entry<V>>, n: nat)
    requires n <= |es| && Distinct(es)
    ensures |Told(es, n)| == n
  {
    if n > 0 {
      ToldSize(es, n - 1);
      var e := es[n - 1];
      ToldHas(es, n - 1, e.key);
      GrownByOne(Told(es, n - 1), e.key, e.record);
    }
  }

  /** Entries that agree with a map tell a part of it. */
  lemma {:induction false} ToldAgrees<V>(es: seq<Entry<V>>, n: nat, m: map<Key, V>)
    requires n <= |es|
    requires forall a :: 0 <= a < |es| ==> es[a].key in m && m[es[a].key] == es[a].record
    ensures forall k :: k in Told(es, n) ==> k in m && m[k] == Told(es, n)[k]
  {
    if n > 0 {
      ToldAgrees(es, n - 1, m);
    }
  }

  /** Reading the bins out gives each key of the map exactly once, with its record. */
  lemma ListingTellsAll<V>(bs: Bins<V>, m: map<Key, V>)
    requires Represents(bs, m)
    ensures Told(Listing(bs, 0), |Listing(bs, 0)|) == m
    ensures |Listing(bs, 0)| == |m| && Distinct(Listing(bs, 0))
  {
    var es := Listing(bs, 0);
    ListingLists(bs, 0, m);
    ToldAgrees(es, |es|, m);
    ToldSize(es, |es|);
    assert es[..|es|] == es;
    forall k | k in m ensures k in Told(es, |es|) {
      ToldHas(es, |es|, k);
      assert Filed(bs, k);
      assert Occurs(es, k);
    }
  }

  lemma ListingTells<V>(bs: Bins<V>, m: map<Key, V>)
    requires Represents(bs, m)
    ensures Told(Listing(bs, 0), |Listing(bs, 0)|) == m
  {
    ListingTellsAll(bs, m);
  }

  lemma ListedHashable<V>(bs: Bins<V>, m: map<Key, V>, n: nat)
    requires Represents(bs, m) && n < |Listing(bs, 0)|
    ensures Hashable(Listing(bs, 0)[n].key)
  {
    ListingLists(bs, 0, m);
    assert Filed(bs, Listing(bs, 0)[n].key);
  }

  /** Bins that hold nothing. */
  lemma EmptyRepresents<V>(bs: Bins<V>)
    requires Sized(bs) && forall b :: 0 <= b < |bs| ==> bs[b] == []
    ensures Represents<V>(bs, map[])
  {
  }

  /** The number of entries in the bins from i on. */
  function Entries<V>(bs: Bins<V>, i: nat): nat
    decreases |bs| - i
  {
    if i >= |bs| then 0 else |bs[i]| + Entries(bs, i + 1)
  }

  lemma {:induction false} NoEntries<V>(bs: Bins<V>, i: nat)
    requires forall b :: 0 <= b < |bs| ==> bs[b] == []
    ensures Entries(bs, i) == 0
    decreases |bs| - i
  {
    if i < |bs| {
      NoEntries(bs, i + 1);
    }
  }

  lemma {:induction false} EntriesChange<V>(bs: Bins<V>, b: nat, bin: seq<Entry<V>>, i: nat)
    requires b < |bs|
    ensures Entries(bs[b := bin], i) == if i <= b then Entries(bs, i) + |bin| - |bs[b]| else Entries(bs, i)
    decreases |bs| - i
  {
    if i < |bs| {
      EntriesChange(bs, b, bin, i + 1);
    }
  }

  lemma {:induction false} EntriesAreListed<V>(bs: Bins<V>, i: nat)
    ensures Entries(bs, i) == |Listing(bs, i)|
    decreases |bs| - i
  {
    if i < |bs| {
      EntriesAreListed(bs, i + 1);
    }
  }

  /** The number of entries in the bins is the number of keys. */
  lemma EntriesAreKeys<V>(bs: Bins<V>, m: map<Key, V>)
    requires Represents(bs, m)
    ensures Entries(bs, 0) == |m|
  {
    EntriesAreListed(bs, 0);
    ListingTellsAll(bs, m);
  }

  // ---- the table ----

  class Table<V> {
    var bins: Bins<V>
    var numEntries: nat
    ghost var contents: map<Key, V>

    ghost predicate Sound()
      reads this
    {
      Represents(bins, contents) && numEntries == Entries(bins, 0)
    }

    ghost predicate Valid()
      reads this
    {
      Sound() && numEntries <= MAX_DENSITY * |bins|
    }

    constructor ()
      ensures Valid() && contents == map[]
    {
      bins := seq(INITIAL_BINS, _ => []);
      numEntries := 0;
      contents := map[];
      new;
      EmptyRepresents(bins);
      NoEntries(bins, 0);
    }

    /** The bin of a key. */
    method Place(key: Key) returns (b: nat)
      requires Sized(bins) && Hashable(key)
      ensures b < |bins| && b == BinOf(key, |bins|)
    {
      BinInTableExactly(key, |bins|);
      b := DoHash(key, |bins|);
    }

    /** The bin of a key, and the place of its entry there; past the end if it has none. */
    method Find(key: Key) returns (b: nat, j: nat)
      requires Valid() && Hashable(key)
      ensures b < |bins| && b == BinOf(key, |bins|) && j <= |bins[b]|
      ensures key in contents <==> j < |bins[b]|
      ensures j < |bins[b]| ==> bins[b][j] == Entry(key, contents[key])
    {
      b := Place(key);
      PresentWhenFiled(bins, contents, key);
      j := 0;
      while j < |bins[b]| && bins[b][j].key != key
        invariant j <= |bins[b]|
        invariant forall i :: 0 <= i < j ==> bins[b][i].key != key
      {
        j := j + 1;
      }
      assert GoodBin(bins[b], b, |bins|, contents);
      assert j < |bins[b]| ==> Held(bins[b][j], b, |bins|, contents);
    }

    method Lookup(key: Key) returns (r: Option<V>)
      requires Valid() && Hashable(key)
      ensures r == if key in contents then Some(contents[key]) else None
    {
      var b, j := Find(key);
      r := if j < |bins[b]| then Some(bins[b][j].record) else None;
    }

    /** The entry count is the number of keys, and no more than five times the number of bins. */
    lemma CountIsExact()
      requires Valid()
      ensures numEntries == |contents| <= MAX_DENSITY * |bins|
    {
      EntriesAreKeys(bins, contents);
    }

    /** Link a new entry in front of its bin. */
    method Link(b: nat, e: Entry<V>)
      requires Sound() && e.key !in contents && Hashable(e.key) && b == BinOf(e.key, |bins|) < |bins|
      modifies this
      ensures Sound() && contents == old(contents)[e.key := e.record] && |bins| == |old(bins)|
      ensures numEntries == old(numEntries) + 1
    {
      Pushed(bins, contents, e, b);
      EntriesChange(bins, b, [e] + bins[b], 0);
      bins := bins[b := [e] + bins[b]];
      numEntries := numEntries + 1;
      contents := contents[e.key := e.record];
    }

    /** Give the entry at j of bin b another record. */
    method Rewrite(b: nat, j: nat, v: V)
      requires Sound() && b < |bins| && j < |bins[b]|
      modifies this
      ensures Sound() && |bins| == |old(bins)| && numEntries == old(numEntries)
      ensures old(bins[b][j].key in contents) && contents == old(contents)[old(bins[b][j].key) := v]
    {
      var e := Entry(bins[b][j].key, v);
      Rewritten(bins, contents, b, j, v);
      EntriesChange(bins, b, bins[b][j := e], 0);
      bins := bins[b := bins[b][j := e]];
      contents := contents[e.key := v];
    }

    /** Unlink the entry at j of bin b. */
    method Unlink(b: nat, j: nat)
      requires Sound() && b < |bins| && j < |bins[b]| && bins[b][j].key in contents
      modifies this
      ensures Sound() && contents == old(contents) - {old(bins[b][j].key)} && |bins| == |old(bins)|
      ensures numEntries == old(numEntries) - 1
    {
      ghost var k := bins[b][j].key;
      Cut(bins, contents, b, j);
      EntriesChange(bins, b, bins[b][..j] + bins[b][j + 1..], 0);
      bins := bins[b := bins[b][..j] + bins[b][j + 1..]];
      numEntries := numEntries - 1;
      contents := contents - {k};
    }

    /** Give the key a record; the result says whether it had one. */
    method Insert(key: Key, value: V) returns (had: bool)
      requires Valid() && Hashable(key)
      modifies this
      ensures Valid()
      ensures contents == old(contents)[key := value]
      ensures had <==> key in old(contents)
    {
      var b, j := Find(key);
      had := j < |bins[b]|;
      if had {
        Rewrite(b, j, value);
      } else {
        Density(numEntries, |bins|);
        if numEntries / |bins| >= MAX_DENSITY {
          Rehash();
        }
        Refile(Entry(key, value));
      }
    }

    /** Take a key out; the result is the stored entry, if there was one. */
    method Remove(key: Key) returns (r: Option<Entry<V>>)
      requires Valid() && Hashable(key)
      modifies this
      ensures Valid() && |bins| == |old(bins)|
      ensures contents == old(contents) - {key}
      ensures r == if key in old(contents) then Some(Entry(key, old(contents)[key])) else None
    {
      var b, j := Find(key);
      if j == |bins[b]| {
        assert contents - {key} == contents;
        return None;
      }
      r := Some(bins[b][j]);
      Unlink(b, j);
    }

    /** File an entry where it belongs. */
    method Refile(e: Entry<V>)
      requires Sound() && e.key !in contents && Hashable(e.key)
      modifies this
      ensures Sound() && contents == old(contents)[e.key := e.record] && |bins| == |old(bins)|
      ensures numEntries == old(numEntries) + 1
    {
      var h := Place(e.key);
      Link(h, e);
    }

    /** Move the entries of an old bin to the bins where they belong now. */
    method MoveBin(was: Bins<V>, i: nat, ghost all: map<Key, V>)
      requires Sound() && Represents(was, all) && i < |was| && Carried(was, all, contents, i, 0)
      modifies this
      ensures Sound() && Carried(was, all, contents, i, |was[i]|) && |bins| == |old(bins)|
    {
      var j := 0;
      while j < |was[i]|
        invariant |bins| == |old(bins)| && j <= |was[i]| && Sound() && Carried(was, all, contents, i, j)
      {
        var e := was[i][j];
        CarryOne(was, all, contents, e, i, j);
        Refile(e);
        j := j + 1;
      }
    }

    /** Spread the entries over about twice as many bins. */
    method Rehash()
      requires Valid()
      modifies this
      ensures Valid() && |bins| == 2 * old(|bins|) + 1
      ensures contents == old(contents) && numEntries == old(numEntries)
    {
      var oldBins := bins;
      ghost var all := contents;
      var numBins := 2 * |oldBins|;
      if numBins % 2 == 0 {
        numBins := numBins + 1;
      }
      EntriesAreKeys(oldBins, all);
      Clear(numBins);
      MoveAll(oldBins, all);
      EntriesAreKeys(bins, contents);
    }

    /** Start over with empty bins. */
    method Clear(numBins: nat)
      requires numBins % 2 == 1 && numBins > 1
      modifies this
      ensures Sound() && contents == map[] && |bins| == numBins
    {
      numEntries, contents := 0, map[];
      bins := seq(numBins, _ => []);
      EmptyRepresents(bins);
      NoEntries(bins, 0);
    }

    /** Move the entries of all old bins. */
    method MoveAll(was: Bins<V>, ghost all: map<Key, V>)
      requires Sound() && Represents(was, all) && contents == map[]
      modifies this
      ensures Sound() && contents == all && |bins| == old(|bins|)
    {
      ghost var n := |bins|;
      CarriedNone(was, all);
      for i := 0 to |was|
        invariant |bins| == n && Sound() && Carried(was, all, contents, i, 0)
      {
        MoveBin(was, i, all);
        CarryOver(was, all, contents, i);
      }
      CarriedAll(was, all, contents);
    }
  }

  lemma Density(entries: nat, bins: nat)
    requires bins > 0
    ensures entries / bins >= MAX_DENSITY <==> entries >= MAX_DENSITY * bins
  {
  }

  lemma GrownByOne<V>(m: map<Key, V>, k: Key, v: V)
    requires k !in m
    ensures |m[k := v]| == |m| + 1
  {
    assert m[k := v].Keys == m.Keys + {k};
    assert |m[k := v]| == |m[k := v].Keys| && |m| == |m.Keys|;
  }

  /** While rehashing: what has been moved when i bins, and j entries of the next, are done. */
  ghost predicate Carried<V>(bs: Bins<V>, m: map<Key, V>, moved: map<Key, V>, i: nat, j: nat)
    requires Sized(bs) && i <= |bs| && (if i < |bs| then j <= |bs[i]| else j == 0)
  {
    && (forall k :: k in moved ==> k in m && moved[k] == m[k])
    && (forall k {:trigger Passed(bs, k, i, j)} :: k in m ==> (k in moved <==> Passed(bs, k, i, j)))
  }

  /** Key k lies in one of the first i bins, or among the first j entries of the next. */
  ghost predicate Passed<V>(bs: Bins<V>, k: Key, i: nat, j: nat)
    requires Sized(bs) && i <= |bs| && (if i < |bs| then j <= |bs[i]| else j == 0)
  {
    BinOf(k, |bs|) < i || (i < |bs| && BinOf(k, |bs|) == i && Occurs(bs[i][..j], k))
  }

  lemma CarriedNone<V>(bs: Bins<V>, m: map<Key, V>)
    requires Represents(bs, m)
    ensures Carried(bs, m, map[], 0, 0)
  {
    forall k | k in m ensures !Passed(bs, k, 0, 0) {
      assert Filed(bs, k);
    }
  }

  lemma OneMorePassed<V>(bs: Bins<V>, k: Key, i: nat, j: nat)
    requires Sized(bs) && i < |bs| && j < |bs[i]| && BinOf(bs[i][j].key, |bs|) == i
    ensures Passed(bs, k, i, j + 1) <==> Passed(bs, k, i, j) || k == bs[i][j].key
  {
    var shorter, longer := bs[i][..j], bs[i][..j + 1];
    assert longer[j] == bs[i][j];
    if Occurs(shorter, k) {
      var a :| 0 <= a < j && shorter[a].key == k;
      assert longer[a].key == k;
    }
    if Occurs(longer, k) {
      var a :| 0 <= a < j + 1 && longer[a].key == k;
      assert a < j ==> shorter[a].key == k;
    }
  }

  lemma CarryOne<V>(bs: Bins<V>, m: map<Key, V>, moved: map<Key, V>, e: Entry<V>, i: nat, j: nat)
    requires Represents(bs, m) && i < |bs| && j < |bs[i]| && e == bs[i][j] && Carried(bs, m, moved, i, j)
    ensures e.key !in moved && Hashable(e.key)
    ensures Carried(bs, m, moved[e.key := e.record], i, j + 1)
  {
    assert GoodBin(bs[i], i, |bs|, m) && Held(bs[i][j], i, |bs|, m);
    assert !Passed(bs, e.key, i, j);
    forall k | k in m ensures k in moved[e.key := e.record] <==> Passed(bs, k, i, j + 1) {
      OneMorePassed(bs, k, i, j);
      assert k in moved <==> Passed(bs, k, i, j);
    }
  }

  lemma CarryOver<V>(bs: Bins<V>, m: map<Key, V>, moved: map<Key, V>, i: nat)
    requires Represents(bs, m) && i < |bs| && Carried(bs, m, moved, i, |bs[i]|)
    ensures Carried(bs, m, moved, i + 1, 0)
  {
    assert bs[i][..|bs[i]|] == bs[i];
    forall k | k in m ensures k in moved <==> Passed(bs, k, i + 1, 0) {
      assert Filed(bs, k);
      assert k in moved <==> Passed(bs, k, i, |bs[i]|);
    }
  }

  lemma CarriedAll<V>(bs: Bins<V>, m: map<Key, V>, moved: map<Key, V>)
    requires Represents(bs, m) && Carried(bs, m, moved, |bs|, 0)
    ensures moved == m
  {
    forall k | k in m ensures k in moved {
      assert Filed(bs, k);
      assert Passed(bs, k, |bs|, 0);
    }
  }

  // ---- generators ----

  ghost function BinsOf<V>(t: Table?<V>): Bins<V>
    reads t
  {
    if t == null then [] else t.bins
  }

  class Generator<V> {
    const table: Table?<V>
    var entry: seq<Entry<V>>
    var index: nat
    ghost var all: seq<Entry<V>>
    ghost var given: nat

    /** The first entries of all have been given out, and the others are still to come, from the bins bs. */
    ghost predicate Tells(bs: Bins<V>)
      reads this
    {
      given <= |all| && all[given..] == entry + Listing(bs, index)
    }

    /** That holds of the table's bins, while the table stays as it is. */
    ghost predicate Valid()
      reads this, table
    {
      Tells(BinsOf(table))
    }

    constructor (t: Table?<V>)
      ensures table == t && Valid() && given == 0 && all == Listing(BinsOf(t), 0)
    {
      table, entry, index := t, [], 0;
      all, given := Listing(BinsOf(t), 0), 0;
    }

    /** Go on to the next bin with entries, if there is one. */
    method Refill()
      requires Valid() && entry == []
      modifies this`index, this`entry
      ensures Valid() && (entry == [] ==> given == |all|)
    {
      if table == null {
        return;
      }
      var i := index;
      while i < |table.bins| && table.bins[i] == []
        invariant index <= i
        invariant Listing(table.bins, index) == Listing(table.bins, i)
      {
        i := i + 1;
      }
      if i < |table.bins| {
        index := i + 1;
        entry := table.bins[i];
      }
    }

    method Next() returns (r: Option<Entry<V>>)
      requires Valid()
      modifies this
      ensures Valid() && all == old(all)
      ensures r == if old(given) < |all| then Some(all[old(given)]) else None
      ensures given == if old(given) < |all| then old(given) + 1 else old(given)
    {
      if entry == [] {
        Refill();
        if entry == [] {
          return None;
        }
      }
      r := Some(entry[0]);
      FirstOfRest(all, given, entry, Listing(BinsOf(table), index));
      entry, given := entry[1..], given + 1;
    }
  }

  lemma FirstOfRest<T>(all: seq<T>, n: nat, p: seq<T>, q: seq<T>)
    requires n <= |all| && all[n..] == p + q && p != []
    ensures n < |all| && all[n] == p[0] && all[n + 1..] == p[1..] + q
  {
    assert all[n..][0] == all[n] && all[n..][1..] == all[n + 1..];
    assert (p + q)[1..] == p[1..] + q;
  }

  // ---- sets of names ----

  type NameSet = Table<Key>

  /** A generator that has given out the first n of the entries es, and e as the next. */
  ghost predicate At<V>(es: seq<Entry<V>>, n: nat, e: Option<Entry<V>>, given: nat) {
    n <= |es| && if e.Some? then n < |es| && e.value == es[n] && given == n + 1 else n == |es|
  }

  /** The map after the first n entries, as far as not known, have been put on top of it. */
  ghost function Topped(base: map<Key, Key>, es: seq<Entry<Key>>, n: nat, known: set<Key>): map<Key, Key>
    requires n <= |es|
  {
    if n == 0 then base
    else
      var before := Topped(base, es, n - 1, known);
      if es[n - 1].key in known then before else before[es[n - 1].key := es[n - 1].record]
  }

  lemma {:induction false} ToppedIs(base: map<Key, Key>, es: seq<Entry<Key>>, n: nat, known: set<Key>)
    requires n <= |es|
    ensures Topped(base, es, n, known) == base + (Told(es, n) - known)
  {
    if n > 0 {
      ToppedIs(base, es, n - 1, known);
    } else {
      assert Told(es, 0) - known == map[];
    }
  }

  /** The names of the first n entries that are wanted, each with itself as its record. */
  ghost function Common(es: seq<Entry<Key>>, n: nat, wanted: set<Key>): map<Key, Key>
    requires n <= |es|
  {
    if n == 0 then map[]
    else
      var before := Common(es, n - 1, wanted);
      if es[n - 1].key in wanted then before[es[n - 1].key := es[n - 1].key] else before
  }

  lemma {:induction false} CommonIs(es: seq<Entry<Key>>, n: nat, wanted: set<Key>)
    requires n <= |es|
    ensures Common(es, n, wanted) == map k | k in Told(es, n) && k in wanted :: k
  {
    if n > 0 {
      CommonIs(es, n - 1, wanted);
    }
  }

  ghost function Names(s: Table?<Key>): set<Key>
    reads s
  {
    if s == null then {} else s.contents.Keys
  }

  method CopyOne(u: NameSet, e: Entry<Key>, known: Table?<Key>)
    requires u.Valid() && Hashable(e.key) && (known != null ==> known.Valid() && known != u)
    modifies u
    ensures u.Valid()
    ensures u.contents == if e.key in Names(known) then old(u.contents) else old(u.contents)[e.key := e.record]
  {
    var found := None;
    if known != null {
      found := known.Lookup(e.key);
    }
    if found == None {
      var _ := u.Insert(e.key, e.record);
    }
  }

  method CopyNext(u: NameSet, e: Entry<Key>, known: Table?<Key>,
                  ghost base: map<Key, Key>, ghost es: seq<Entry<Key>>, ghost n: nat, ghost names: set<Key>)
    requires u.Valid() && Hashable(e.key) && (known != null ==> known.Valid() && known != u)
    requires names == Names(known) && n < |es| && e == es[n] && u.contents == Topped(base, es, n, names)
    modifies u
    ensures u.Valid() && u.contents == Topped(base, es, n + 1, names)
  {
    CopyOne(u, e, known);
  }

  /** Copy the entries of a set into another, except those with a name already known. */
  method CopyInto(u: NameSet, from: NameSet, known: Table?<Key>)
    requires u.Valid() && from.Valid() && (known != null ==> known.Valid() && known != u)
    requires from != u
    modifies u
    ensures u.Valid()
    ensures u.contents == old(u.contents) + (from.contents - Names(known))
  {
    ghost var es, base := Listing(from.bins, 0), u.contents;
    ListingTells(from.bins, from.contents);
    ToppedIs(base, es, |es|, Names(known));
    CopyAll(u, from, known, es, base);
  }

  method CopyAll(u: NameSet, from: NameSet, known: Table?<Key>, ghost es: seq<Entry<Key>>, ghost base: map<Key, Key>)
    requires u.Valid() && from.Valid() && (known != null ==> known.Valid() && known != u)
    requires from != u && es == Listing(from.bins, 0) && base == u.contents
    modifies u
    ensures u.Valid() && u.contents == Topped(base, es, |es|, Names(known))
  {
    ghost var n, names, bs, m := 0, Names(known), from.bins, from.contents;
    var gen := new Generator(from);
    var e := gen.Next();
    while e.Some?
      invariant fresh(gen) && gen.table == from && gen.Tells(bs) && gen.all == es
      invariant from.bins == bs && Names(known) == names && (known != null ==> known.Valid())
      invariant u.Valid() && At(es, n, e, gen.given) && u.contents == Topped(base, es, n, names)
      decreases |es| - n
    {
      ListedHashable(bs, m, n);
      CopyNext(u, e.value, known, base, es, n, names);
      n := n + 1;
      e := gen.Next();
    }
  }

  /** All entries of two sets; where both have a name, the record of the first. */
  method SetUnion(s1: NameSet, s2: NameSet) returns (u: NameSet)
    requires s1.Valid() && s2.Valid()
    ensures fresh(u) && u.Valid() && u.contents == s2.contents + s1.contents
  {
    u := new Table();
    CopyInto(u, s1, null);
    CopyInto(u, s2, s1);
  }

  method AddIfIn(u: NameSet, key: Key, s: NameSet)
    requires u.Valid() && s.Valid() && u != s && Hashable(key)
    modifies u
    ensures u.Valid()
    ensures u.contents == if key in s.contents then old(u.contents)[key := key] else old(u.contents)
  {
    var found := s.Lookup(key);
    if found.Some? {
      var _ := u.Insert(key, key);
    }
  }

  method AddNext(u: NameSet, e: Entry<Key>, s: NameSet, ghost es: seq<Entry<Key>>, ghost n: nat, ghost wanted: set<Key>)
    requires u.Valid() && s.Valid() && u != s && Hashable(e.key) && wanted == s.contents.Keys
    requires n < |es| && e == es[n] && u.contents == Common(es, n, wanted)
    modifies u
    ensures u.Valid() && u.contents == Common(es, n + 1, wanted)
  {
    AddIfIn(u, e.key, s);
  }

  /** The names two sets have in common, each with itself as its record. */
  method SetIntersect(s1: NameSet, s2: NameSet) returns (u: NameSet)
    requires s1.Valid() && s2.Valid()
    ensures fresh(u) && u.Valid()
    ensures u.contents == map k | k in s1.contents && k in s2.contents :: k
  {
    u := new Table();
    ghost var es := Listing(s1.bins, 0);
    ListingTells(s1.bins, s1.contents);
    CommonIs(es, |es|, s2.contents.Keys);
    AddCommon(u, s1, s2, es);
  }

  method AddCommon(u: NameSet, s1: NameSet, s2: NameSet, ghost es: seq<Entry<Key>>)
    requires u.Valid() && s1.Valid() && s2.Valid() && u != s1 && u != s2
    requires es == Listing(s1.bins, 0) && u.contents == map[]
    modifies u
    ensures u.Valid() && u.contents == Common(es, |es|, s2.contents.Keys)
  {
    ghost var n, wanted, bs, m := 0, s2.contents.Keys, s1.bins, s1.contents;
    var gen := new Generator(s1);
    var e := gen.Next();
    while e.Some?
      invariant fresh(gen) && gen.table == s1 && gen.Tells(bs) && gen.all == es
      invariant s1.bins == bs && s2.Valid() && s2.contents.Keys == wanted
      invariant u.Valid() && At(es, n, e, gen.given) && u.contents == Common(es, n, wanted)
      decreases |es| - n
    {
      ListedHashable(bs, m, n);
      AddNext(u, e.value, s2, es, n, wanted);
      n := n + 1;
      e := gen.Next();
    }
  }
}
