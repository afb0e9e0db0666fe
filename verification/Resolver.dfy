/** Nets with several drivers: who drives, and which value wins. */
module Resolver {
  import opened Basics
  import opened Bits

  /** Drive strengths in their order: none, highz, small, medium, weak, large, pull, strong, supply. */
  type Level = n: nat | n <= 8

  const NONE: Level := 0
  const HIGHZ: Level := 1
  const STRONG: Level := 7

  datatype Strength = Strength(s0: Level, s1: Level)

  datatype NetType = Wire | Tri0 | Tri1 | Wand | Trior | Wor | Triand

  /** What a driving variable shows at the moment. */
  datatype Signal = Signal(bits: Vec, strength: Strength, portDriver: bool)

  /** A driver: the variable, the net bits it drives, and the first of its own bits that does. */
  datatype Driver = Driver(src: nat, mTo: nat, lTo: nat, lFrom: nat)

  /** The circumstances of a resolution: the net, the bit, the variable that has just changed, and
      whether drivers across an inout port are to be skipped. */
  datatype Query = Query(netType: NetType, net: Strength, ix: nat, din: nat, skip: bool, sig: nat -> Signal)

  function BitOf(s: Signal, i: nat): Bit {
    if i < |s.bits| then s.bits[i] else Z
  }

  function Strongest(b1: Bit, s1: Strength, b2: Bit, s2: Strength): Bit {
    if b1 == b2 then b1
    else if b1 == Z then b2
    else if b2 == Z then b1
    else if b1 == L && s1.s0 > s2.s1 then L
    else if b1 == H && s1.s1 > s2.s0 then H
    else if b2 == L && s2.s0 > s1.s1 then L
    else if b2 == H && s2.s1 > s1.s0 then H
    else X
  }

  /** A value that takes part in the contention, with its strengths. */
  datatype Drive = Drive(b: Bit, st: Strength)

  datatype Acc = Acc(first: bool, b: Bit, st: Strength)

  const START := Acc(true, Z, Strength(NONE, NONE))

  /** The strength of a driver: its own, or else the net's, or else strong. */
  function Effective(own: Strength, net: Strength): Strength {
    var st := if own.s0 == NONE then net else own;
    Strength(if st.s0 == NONE then STRONG else st.s0, if st.s1 == NONE then STRONG else st.s1)
  }

  /** The accumulator after one more drive. */
  function Combine(a: Acc, d: Drive): Acc {
    var b := if a.first then d.b else Strongest(a.b, a.st, d.b, d.st);
    var st := if a.first then d.st else a.st;
    var s0 := if ((b == L && d.b == L) || b == X) && d.st.s0 > st.s0 then d.st.s0 else st.s0;
    var s1 := if ((b == H && d.b == H) || b == X) && d.st.s1 > st.s1 then d.st.s1 else st.s1;
    Acc(false, b, Strength(s0, s1))
  }

  /** The accumulator after the first n drives. */
  function CombinedTo(ds: seq<Drive>, n: nat): Acc
    requires n <= |ds|
  {
    if n == 0 then START else Combine(CombinedTo(ds, n - 1), ds[n - 1])
  }

  function Combined(ds: seq<Drive>): Acc {
    CombinedTo(ds, |ds|)
  }

  class Net {
    var netType: NetType
    var strength: Strength
    var drivers: seq<Driver>

    constructor (netType: NetType, strength: Strength)
      ensures Valid() && drivers == [] && this.netType == netType && this.strength == strength
    {
      this.netType, this.strength, drivers := netType, strength, [];
    }

    /** A variable drives the net at most once from and to the same bits. */
    ghost predicate Valid()
      reads this
    {
      forall i, j :: 0 <= i < j < |drivers| ==> !SameKey(drivers[i], drivers[j])
    }

    /** Add a driver, or widen the one that is there. */
    method AddDriver(d: nat, mt: nat, lt: nat, lf: nat)
      requires Valid()
      modifies this`drivers
      ensures Valid()
      ensures (forall i :: 0 <= i < |old(drivers)| ==> !SameKey(old(drivers)[i], Driver(d, mt, lt, lf))) ==>
                drivers == old(drivers) + [Driver(d, mt, lt, lf)]
      ensures forall i :: 0 <= i < |old(drivers)| && SameKey(old(drivers)[i], Driver(d, mt, lt, lf)) ==>
                drivers == old(drivers)[i := Driver(d, if mt > old(drivers)[i].mTo then mt else old(drivers)[i].mTo, lt, lf)]
    {
      for i := 0 to |drivers|
        invariant drivers == old(drivers)
        invariant forall j :: 0 <= j < i ==> !SameKey(drivers[j], Driver(d, mt, lt, lf))
      {
        if drivers[i].src == d && drivers[i].lFrom == lf && drivers[i].lTo == lt {
          if mt > drivers[i].mTo {
            drivers := drivers[i := drivers[i].(mTo := mt)];
          }
          return;
        }
      }
      drivers := drivers + [Driver(d, mt, lt, lf)];
    }

    /** The value of bit ix, now that bit ixs of din has changed. Drivers across an inout port are
        skipped when din drives something, except din itself. */
    method ResolveBit(ix: nat, din: nat, ixs: nat, sig: nat -> Signal) returns (b: Bit)
      ensures b == Resolved(Query(netType, strength, ix, din, BitOf(sig(din), ixs) != Z, sig), drivers)
    {
      var q := Query(netType, strength, ix, din, BitOf(sig(din), ixs) != Z, sig);
      var acc := START;
      var i := 0;
      while i < |drivers|
        invariant 0 <= i <= |drivers|
        invariant acc == AccTo(q, drivers, i)
        invariant forall k :: 0 <= k < i ==> !Ends(q, drivers[k])
      {
        var offer := Offer(q, drivers[i]);
        i := i + 1;
        if offer.Some? {
          var bx := offer.value.b;
          if (netType == Wand || netType == Trior) && bx == L {
            return L;
          }
          if (netType == Wor || netType == Triand) && bx == H {
            return H;
          }
          acc := Accumulate(acc, offer.value);
        }
      }
      b := acc.b;
      if b == Z {
        if netType == Tri0 {
          b := L;
        } else if netType == Tri1 {
          b := H;
        }
      }
    }
  }

  /** What a driver has to offer, if anything. */
  method Offer(q: Query, dr: Driver) returns (r: Option<Drive>)
    ensures r == Contribution(q, dr)
  {
    var dt := q.sig(dr.src);
    if q.skip && dt.portDriver && dr.src != q.din {
      return None;
    }
    if q.ix > dr.mTo || q.ix < dr.lTo {
      return None;
    }
    var st := Effective(dt.strength, q.net);
    var bx := BitOf(dt, (q.ix - dr.lTo) + dr.lFrom);
    if (bx == H && st.s1 == HIGHZ) || (bx == L && st.s0 == HIGHZ) {
      return None;
    }
    if bx == Z {
      return None;
    }
    r := Some(Drive(bx, st));
  }

  /** One drive more: the winning side is raised to its strength if it is of the winning value, and
      both sides are when the value has become unknown. */
  method Accumulate(a: Acc, d: Drive) returns (r: Acc)
    ensures r == Combine(a, d)
  {
    var b, accum := a.b, a.st;
    if a.first {
      b, accum := d.b, d.st;
    } else {
      b := Strongest(b, accum, d.b, d.st);
    }
    if b == H && d.b == H {
      if d.st.s1 > accum.s1 {
        accum := accum.(s1 := d.st.s1);
      }
    } else if b == L && d.b == L {
      if d.st.s0 > accum.s0 {
        accum := accum.(s0 := d.st.s0);
      }
    } else if b == X {
      if d.st.s1 > accum.s1 {
        accum := accum.(s1 := d.st.s1);
      }
      if d.st.s0 > accum.s0 {
        accum := accum.(s0 := d.st.s0);
      }
    }
    r := Acc(false, b, accum);
  }

  lemma {:induction false} CombinedOfPrefix(ds: seq<Drive>, es: seq<Drive>, n: nat)
    requires n <= |ds|
    ensures CombinedTo(ds + es, n) == CombinedTo(ds, n)
  {
    if n > 0 {
      CombinedOfPrefix(ds, es, n - 1);
    }
  }

  lemma CombinedSnoc(ds: seq<Drive>, d: Drive)
    ensures Combined(ds + [d]) == Combine(Combined(ds), d)
  {
    CombinedOfPrefix(ds, [d], |ds|);
  }

  predicate SameKey(p: Driver, q: Driver) {
    p.src == q.src && p.lFrom == q.lFrom && p.lTo == q.lTo
  }

  /** What one driver contributes: nothing when it is skipped, out of range, or high impedance. */
  function Contribution(q: Query, dr: Driver): Option<Drive> {
    var dt := q.sig(dr.src);
    if (q.skip && dt.portDriver && dr.src != q.din) || q.ix > dr.mTo || q.ix < dr.lTo then None
    else
      var st := Effective(dt.strength, q.net);
      var bx := BitOf(dt, (q.ix - dr.lTo) + dr.lFrom);
      if (bx == H && st.s1 == HIGHZ) || (bx == L && st.s0 == HIGHZ) || bx == Z then None else Some(Drive(bx, st))
  }

  /** A value that ends the contention on a wired net. */
  predicate Wins(t: NetType, b: Bit) {
    ((t.Wand? || t.Trior?) && b == L) || ((t.Wor? || t.Triand?) && b == H)
  }

  predicate Ends(q: Query, dr: Driver) {
    Contribution(q, dr).Some? && Wins(q.netType, Contribution(q, dr).value.b)
  }

  /** The accumulator after the first n drivers. */
  function AccTo(q: Query, ds: seq<Driver>, n: nat): Acc
    requires n <= |ds|
  {
    if n == 0 then START
    else match Contribution(q, ds[n - 1])
      case None => AccTo(q, ds, n - 1)
      case Some(d) => Combine(AccTo(q, ds, n - 1), d)
  }

  function Pulled(t: NetType, b: Bit): Bit {
    if b == Z && t.Tri0? then L else if b == Z && t.Tri1? then H else b
  }

  function Resolved(q: Query, ds: seq<Driver>): Bit {
    if exists k :: 0 <= k < |ds| && Ends(q, ds[k]) then (if q.netType.Wand? || q.netType.Trior? then L else H)
    else Pulled(q.netType, AccTo(q, ds, |ds|).b)
  }

  /** The drives of the first n drivers. */
  function Drives(q: Query, ds: seq<Driver>, n: nat): seq<Drive>
    requires n <= |ds|
  {
    if n == 0 then []
    else Drives(q, ds, n - 1) + match Contribution(q, ds[n - 1]) case None => [] case Some(d) => [d]
  }

  lemma {:induction false} AccIsCombined(q: Query, ds: seq<Driver>, n: nat)
    requires n <= |ds|
    ensures AccTo(q, ds, n) == Combined(Drives(q, ds, n))
  {
    if n > 0 {
      AccIsCombined(q, ds, n - 1);
      match Contribution(q, ds[n - 1])
      case None => assert Drives(q, ds, n - 1) + [] == Drives(q, ds, n - 1);
      case Some(d) => CombinedSnoc(Drives(q, ds, n - 1), d);
    }
  }

  // ---- the closed form ----

  /** A drive whose strength on the side of its value is its greater one; an unknown value may be
      off balance by one. */
  predicate Fair(d: Drive) {
    match d.b
    case L => d.st.s1 <= d.st.s0
    case H => d.st.s0 <= d.st.s1
    case _ => d.st.s0 <= d.st.s1 + 1 && d.st.s1 <= d.st.s0 + 1
  }

  predicate AllFair(ds: seq<Drive>) {
    forall i :: 0 <= i < |ds| ==> Fair(ds[i])
  }

  predicate NoZ(ds: seq<Drive>) {
    forall i :: 0 <= i < |ds| ==> ds[i].b != Z
  }

  /** The strength with which a drive stands up for its value, 0 or 1. */
  function For(d: Drive): Level {
    if d.b == L then d.st.s0 else d.st.s1
  }

  /** The strength with which a drive of another value opposes v: an unknown opposes 0 as if it were
      1, and 1 as if it were 0. */
  function Against(d: Drive, v: Bit): Level {
    if v == L then d.st.s1 else d.st.s0
  }

  /** Every drive of another value opposes v with less than s. */
  predicate Unbeaten(ds: seq<Drive>, v: Bit, s: Level) {
    forall j :: 0 <= j < |ds| && ds[j].b != v ==> Against(ds[j], v) < s
  }

  /** Some drive of value v is strictly stronger than every drive of another value. */
  predicate Dominates(ds: seq<Drive>, v: Bit) {
    exists i :: 0 <= i < |ds| && ds[i].b == v && Unbeaten(ds, v, For(ds[i]))
  }

  /** The winning value, with no order in it. */
  function Winner(ds: seq<Drive>): Bit {
    if ds == [] then Z else if Dominates(ds, H) then H else if Dominates(ds, L) then L else X
  }

  // ---- the fold reaches it ----

  /** The greatest strength for v among the first n drives; -1 if none has that value. */
  function Top(ds: seq<Drive>, v: Bit, n: nat): (r: int)
    requires n <= |ds|
    ensures -1 <= r <= 8
  {
    if n == 0 then -1
    else
      var t := Top(ds, v, n - 1);
      if ds[n - 1].b == v && For(ds[n - 1]) > t then For(ds[n - 1]) else t
  }

  /** The greatest strength that opposes v among the first n drives; -1 if nothing does. */
  function Opposed(ds: seq<Drive>, v: Bit, n: nat): (r: int)
    requires n <= |ds|
    ensures -1 <= r <= 8
  {
    if n == 0 then -1
    else
      var t := Opposed(ds, v, n - 1);
      if ds[n - 1].b != v && Against(ds[n - 1], v) > t then Against(ds[n - 1], v) else t
  }

  /** What the first n drives come to. */
  function Outcome(ds: seq<Drive>, n: nat): Bit
    requires n <= |ds|
  {
    if n == 0 then Z
    else if Top(ds, H, n) > Opposed(ds, H, n) then H
    else if Top(ds, L, n) > Opposed(ds, L, n) then L
    else X
  }

  lemma {:induction false} TopIs(ds: seq<Drive>, v: Bit, n: nat)
    requires n <= |ds|
    ensures forall k :: 0 <= k < n && ds[k].b == v ==> For(ds[k]) <= Top(ds, v, n)
    ensures Top(ds, v, n) >= 0 ==> exists k :: 0 <= k < n && ds[k].b == v && For(ds[k]) == Top(ds, v, n)
  {
    if n > 0 {
      TopIs(ds, v, n - 1);
    }
  }

  lemma {:induction false} OpposedIs(ds: seq<Drive>, v: Bit, n: nat)
    requires n <= |ds|
    ensures forall k :: 0 <= k < n && ds[k].b != v ==> Against(ds[k], v) <= Opposed(ds, v, n)
    ensures Opposed(ds, v, n) >= 0 ==> exists k :: 0 <= k < n && ds[k].b != v && Against(ds[k], v) == Opposed(ds, v, n)
  {
    if n > 0 {
      OpposedIs(ds, v, n - 1);
    }
  }

  lemma DominatesIsTop(ds: seq<Drive>, v: Bit)
    ensures Dominates(ds, v) <==> Top(ds, v, |ds|) > Opposed(ds, v, |ds|)
  {
    var n := |ds|;
    TopIs(ds, v, n);
    OpposedIs(ds, v, n);
    if Dominates(ds, v) {
      var i :| 0 <= i < n && ds[i].b == v && Unbeaten(ds, v, For(ds[i]));
      assert For(ds[i]) <= Top(ds, v, n);
    }
    if Top(ds, v, n) > Opposed(ds, v, n) {
      var k :| 0 <= k < n && ds[k].b == v && For(ds[k]) == Top(ds, v, n);
      assert Unbeaten(ds, v, For(ds[k]));
    }
  }

  lemma OutcomeIsWinner(ds: seq<Drive>)
    ensures Outcome(ds, |ds|) == Winner(ds)
  {
    DominatesIsTop(ds, H);
    DominatesIsTop(ds, L);
  }

  /** The invariant on the accumulated strength pair: on the side of the winning value it is the
      greatest strength there is, on the other side no more; and after contention each side has
      the greatest strength that opposes the value of the other. */
  predicate Sound(ds: seq<Drive>, n: nat, a: Acc)
    requires n <= |ds|
  {
    && !a.first && a.b == Outcome(ds, n)
    && (a.b == H ==> a.st.s1 == Top(ds, H, n) && a.st.s0 <= a.st.s1)
    && (a.b == L ==> a.st.s0 == Top(ds, L, n) && a.st.s1 <= a.st.s0)
    && (a.b == X ==> a.st.s0 == Opposed(ds, H, n) && a.st.s1 == Opposed(ds, L, n))
  }

  /** How the strengths for one value and against the two values stand to each other. */
  lemma {:induction false} Sides(ds: seq<Drive>, v: Bit, w: Bit, n: nat)
    requires n <= |ds| && AllFair(ds) && NoZ(ds) && ((v == L && w == H) || (v == H && w == L))
    ensures Top(ds, v, n) <= Opposed(ds, w, n) <= Greater(Top(ds, v, n), Opposed(ds, v, n) + 1)
  {
    if n > 0 {
      Sides(ds, v, w, n - 1);
      assert Fair(ds[n - 1]) && ds[n - 1].b != Z;
    }
  }

  function Greater(a: int, b: int): int {
    if a < b then b else a
  }

  /** The invariant is kept by one more drive. */
  lemma SoundStep(ds: seq<Drive>, n: nat, a: Acc)
    requires 0 < n < |ds| && AllFair(ds) && NoZ(ds) && Sound(ds, n, a)
    ensures Sound(ds, n + 1, Combine(a, ds[n]))
  {
    Sides(ds, L, H, n);
    Sides(ds, H, L, n);
    assert Fair(ds[n]) && ds[n].b != Z;
    match a.b
    case L => SoundAfterLow(ds, n, a);
    case H => SoundAfterHigh(ds, n, a);
    case _ => SoundAfterUnknown(ds, n, a);
  }

  lemma SoundAfterLow(ds: seq<Drive>, n: nat, a: Acc)
    requires 0 < n < |ds| && NoZ(ds) && Sound(ds, n, a) && a.b == L && Fair(ds[n]) && ds[n].b != Z
    requires Top(ds, L, n) <= Opposed(ds, H, n) <= Greater(Top(ds, L, n), Opposed(ds, L, n) + 1)
    requires Top(ds, H, n) <= Opposed(ds, L, n) <= Greater(Top(ds, H, n), Opposed(ds, H, n) + 1)
    ensures Sound(ds, n + 1, Combine(a, ds[n]))
  {
  }

  lemma SoundAfterHigh(ds: seq<Drive>, n: nat, a: Acc)
    requires 0 < n < |ds| && NoZ(ds) && Sound(ds, n, a) && a.b == H && Fair(ds[n]) && ds[n].b != Z
    requires Top(ds, L, n) <= Opposed(ds, H, n) <= Greater(Top(ds, L, n), Opposed(ds, L, n) + 1)
    requires Top(ds, H, n) <= Opposed(ds, L, n) <= Greater(Top(ds, H, n), Opposed(ds, H, n) + 1)
    ensures Sound(ds, n + 1, Combine(a, ds[n]))
  {
  }

  lemma SoundAfterUnknown(ds: seq<Drive>, n: nat, a: Acc)
    requires 0 < n < |ds| && NoZ(ds) && Sound(ds, n, a) && !Known(a.b) && Fair(ds[n]) && ds[n].b != Z
    requires Top(ds, L, n) <= Opposed(ds, H, n) <= Greater(Top(ds, L, n), Opposed(ds, L, n) + 1)
    requires Top(ds, H, n) <= Opposed(ds, L, n) <= Greater(Top(ds, H, n), Opposed(ds, H, n) + 1)
    ensures Sound(ds, n + 1, Combine(a, ds[n]))
  {
  }

  /** The fold over the drives arrives at the order-free winner. */
  lemma {:induction false} FoldIsWinner(ds: seq<Drive>, n: nat)
    requires 0 < n <= |ds| && AllFair(ds) && NoZ(ds)
    ensures Sound(ds, n, CombinedTo(ds, n))
  {
    if n > 1 {
      FoldIsWinner(ds, n - 1);
      SoundStep(ds, n - 1, CombinedTo(ds, n - 1));
    } else {
      assert CombinedTo(ds, 0) == START && Fair(ds[0]) && ds[0].b != Z;
      assert Top(ds, H, 0) == Top(ds, L, 0) == Opposed(ds, H, 0) == Opposed(ds, L, 0) == -1;
    }
  }

  lemma {:induction false} DrivesNoZ(q: Query, ds: seq<Driver>, n: nat)
    requires n <= |ds|
    ensures NoZ(Drives(q, ds, n))
  {
    if n > 0 {
      DrivesNoZ(q, ds, n - 1);
    }
  }

  predicate Ordinary(t: NetType) {
    t.Wire? || t.Tri0? || t.Tri1?
  }

  /** An ordinary net, whose drives are fair, has the value of its strictly strongest drivers, x when
      they do not agree, and its pull when nothing drives it. */
  lemma ResolvedIsWinner(q: Query, ds: seq<Driver>)
    requires Ordinary(q.netType) && AllFair(Drives(q, ds, |ds|))
    ensures Resolved(q, ds) == Pulled(q.netType, Winner(Drives(q, ds, |ds|)))
  {
    var p := Drives(q, ds, |ds|);
    AccIsCombined(q, ds, |ds|);
    DrivesNoZ(q, ds, |ds|);
    if p != [] {
      FoldIsWinner(p, |p|);
      OutcomeIsWinner(p);
    }
  }

  /** The winner depends only on which drives there are. */
  lemma WinnerIsOrderFree(ds: seq<Drive>, es: seq<Drive>)
    requires forall d :: d in ds <==> d in es
    ensures Winner(ds) == Winner(es)
  {
    if ds != [] {
      assert ds[0] in es;
    }
    if es != [] {
      assert es[0] in ds;
    }
    DominatesIsOrderFree(ds, es, H);
    DominatesIsOrderFree(es, ds, H);
    DominatesIsOrderFree(ds, es, L);
    DominatesIsOrderFree(es, ds, L);
  }

  lemma DominatesIsOrderFree(ds: seq<Drive>, es: seq<Drive>, v: Bit)
    requires forall d :: d in ds <==> d in es
    ensures Dominates(ds, v) ==> Dominates(es, v)
  {
    if Dominates(ds, v) {
      var i :| 0 <= i < |ds| && ds[i].b == v && Unbeaten(ds, v, For(ds[i]));
      assert ds[i] in es;
      var k :| 0 <= k < |es| && es[k] == ds[i];
      forall j | 0 <= j < |es| && es[j].b != v ensures Against(es[j], v) < For(es[k]) {
        assert es[j] in ds;
      }
    }
  }

  lemma {:induction false} DrivesMembers(q: Query, ds: seq<Driver>, n: nat, d: Drive)
    requires n <= |ds|
    ensures d in Drives(q, ds, n) <==> exists k :: 0 <= k < n && Contribution(q, ds[k]) == Some(d)
  {
    if n > 0 {
      DrivesMembers(q, ds, n - 1, d);
    }
  }

  /** The order in which drivers were added to an ordinary net never matters when all are fair. */
  lemma ResolutionIsOrderFree(q: Query, ds: seq<Driver>, es: seq<Driver>)
    requires Ordinary(q.netType) && forall d :: d in ds <==> d in es
    requires AllFair(Drives(q, ds, |ds|))
    ensures Resolved(q, ds) == Resolved(q, es)
  {
    var p, r := Drives(q, ds, |ds|), Drives(q, es, |es|);
    forall d ensures d in p <==> d in r {
      DrivesMembers(q, ds, |ds|, d);
      DrivesMembers(q, es, |es|, d);
      if k :| 0 <= k < |ds| && Contribution(q, ds[k]) == Some(d) {
        assert ds[k] in es;
      }
      if k :| 0 <= k < |es| && Contribution(q, es[k]) == Some(d) {
        assert es[k] in ds;
      }
    }
    forall i | 0 <= i < |r| ensures Fair(r[i]) {
      assert r[i] in p;
    }
    ResolvedIsWinner(q, ds);
    ResolvedIsWinner(q, es);
    WinnerIsOrderFree(p, r);
  }

  // ---- unfair drives ----

  /** What a driver can offer: a value other than z, with strengths neither missing nor high
      impedance on the side of the value. */
  predicate Offers(d: Drive) {
    d.b != Z && d.st.s0 > NONE && d.st.s1 > NONE
    && (d.b == L ==> d.st.s0 > HIGHZ) && (d.b == H ==> d.st.s1 > HIGHZ)
  }

  predicate Balanced(d: Drive) {
    d.st.s0 == d.st.s1
  }

  /** A wire with three drivers of one bit. */
  function Wired(d: Drive, e: Drive, f: Drive): Query {
    Query(Wire, Strength(NONE, NONE), 0, 0, false,
          i => var x := if i == 0 then d else if i == 1 then e else f; Signal([x.b], x.st, false))
  }

  function Source(i: nat): Driver {
    Driver(i, 0, 0, 0)
  }

  lemma WiredDrives(d: Drive, e: Drive, f: Drive)
    requires Offers(d) && Offers(e) && Offers(f)
    ensures var q := Wired(d, e, f);
            && Resolved(q, [Source(0), Source(1), Source(2)]) == Combined([d, e, f]).b
            && Resolved(q, [Source(0), Source(2), Source(1)]) == Combined([d, f, e]).b
  {
    var q := Wired(d, e, f);
    SourceOffers(q, 0, d);
    SourceOffers(q, 1, e);
    SourceOffers(q, 2, f);
    NoZOfThree(d, e, f);
    NoZOfThree(d, f, e);
    ThreeDrives(q, 0, 1, 2, d, e, f);
    ThreeDrives(q, 0, 2, 1, d, f, e);
  }

  lemma SourceOffers(q: Query, i: nat, x: Drive)
    requires q.ix == 0 && !q.skip && q.sig(i) == Signal([x.b], x.st, false) && Offers(x)
    ensures Contribution(q, Source(i)) == Some(x)
  {
    assert BitOf(q.sig(i), 0) == x.b && Effective(x.st, q.net) == x.st;
  }

  lemma NoZOfThree(d: Drive, e: Drive, f: Drive)
    requires d.b != Z && e.b != Z && f.b != Z
    ensures Combined([d, e, f]).b != Z
  {
    ThreeCombined(d, e, f);
  }

  lemma ThreeDrives(q: Query, i: nat, j: nat, k: nat, d: Drive, e: Drive, f: Drive)
    requires q.netType.Wire? && Contribution(q, Source(i)) == Some(d)
    requires Contribution(q, Source(j)) == Some(e) && Contribution(q, Source(k)) == Some(f)
    ensures Combined([d, e, f]).b != Z ==> Resolved(q, [Source(i), Source(j), Source(k)]) == Combined([d, e, f]).b
  {
    var ds := [Source(i), Source(j), Source(k)];
    AccIsCombined(q, ds, 3);
    assert Drives(q, ds, 1) == [d];
    assert Drives(q, ds, 2) == [d, e];
    assert Drives(q, ds, 3) == [d, e, f];
  }

  lemma ThreeCombined(d: Drive, e: Drive, f: Drive)
    ensures Combined([d, e, f]) == Combine(Combine(Combine(START, d), e), f)
  {
    var ds := [d, e, f];
    assert CombinedTo(ds, 0) == START;
    assert CombinedTo(ds, 1) == Combine(START, d);
    assert CombinedTo(ds, 2) == Combine(CombinedTo(ds, 1), e);
  }

  /** For every drive that is not fair there are two balanced ones with which the order matters. */
  lemma UnfairOrderMatters(d: Drive) returns (e: Drive, f: Drive)
    requires Offers(d) && !Fair(d)
    ensures Offers(e) && Offers(f) && Balanced(e) && Balanced(f)
    ensures Combined([d, e, f]).b != Combined([d, f, e]).b
  {
    var m := if d.st.s0 < d.st.s1 then d.st.s0 else d.st.s1;
    var l, h := if d.b == H then m else m + 1, if d.b == L then m else m + 1;
    e, f := Drive(L, Strength(l, l)), Drive(H, Strength(h, h));
    ThreeCombined(d, e, f);
    ThreeCombined(d, f, e);
  }

  /** On a wire, the order of the other two of three drivers never matters, as long as those are
      balanced, exactly if the first is fair. */
  lemma OrderFreeExactlyWhenFair(d: Drive)
    requires Offers(d)
    ensures Fair(d) <==>
            forall e, f :: Offers(e) && Offers(f) && Balanced(e) && Balanced(f) ==>
              Resolved(Wired(d, e, f), [Source(0), Source(1), Source(2)])
              == Resolved(Wired(d, e, f), [Source(0), Source(2), Source(1)])
  {
    if Fair(d) {
      forall e, f | Offers(e) && Offers(f) && Balanced(e) && Balanced(f)
        ensures Resolved(Wired(d, e, f), [Source(0), Source(1), Source(2)])
             == Resolved(Wired(d, e, f), [Source(0), Source(2), Source(1)])
      {
        WiredDrives(d, e, f);
        TwoOrders(d, e, f);
      }
    } else {
      var e, f := UnfairOrderMatters(d);
      WiredDrives(d, e, f);
    }
  }

  lemma TwoOrders(d: Drive, e: Drive, f: Drive)
    requires Offers(d) && Offers(e) && Offers(f) && Fair(d) && Fair(e) && Fair(f)
    ensures Combined([d, e, f]).b == Combined([d, f, e]).b
  {
    var p, r := [d, e, f], [d, f, e];
    FoldIsWinner(p, 3);
    FoldIsWinner(r, 3);
    OutcomeIsWinner(p);
    OutcomeIsWinner(r);
    WinnerIsOrderFree(p, r);
  }

  /** A 1 whose 0-strength is the greater, with a 0 and another 1 of plain strengths, for one. */
  lemma UnbalancedOrderMatters()
    ensures var d, e, f := Drive(H, Strength(5, 3)), Drive(L, Strength(3, 3)), Drive(H, Strength(4, 4));
            && Resolved(Wired(d, e, f), [Source(0), Source(1), Source(2)]) == X
            && Resolved(Wired(d, e, f), [Source(0), Source(2), Source(1)]) == H
  {
    var d, e, f := Drive(H, Strength(5, 3)), Drive(L, Strength(3, 3)), Drive(H, Strength(4, 4));
    WiredDrives(d, e, f);
    ThreeCombined(d, e, f);
    ThreeCombined(d, f, e);
  }

  // ---- which bits of which drivers take part ----

  predicate InRange(q: Query, dr: Driver) {
    dr.lTo <= q.ix <= dr.mTo
  }

  /** A driver across a port is skipped when the variable that changed drives something itself. */
  predicate Skipped(q: Query, dr: Driver) {
    q.skip && q.sig(dr.src).portDriver && dr.src != q.din
  }

  /** The driver's own bit for the bit in question: counted from its first one, and z beyond its end. */
  function Shown(q: Query, dr: Driver): Bit
    requires InRange(q, dr)
  {
    var bits, i := q.sig(dr.src).bits, dr.lFrom + q.ix - dr.lTo;
    if i < |bits| then bits[i] else Z
  }

  function DriversWithout(ds: seq<Driver>, k: nat): seq<Driver>
    requires k < |ds|
  {
    ds[..k] + ds[k + 1..]
  }

  lemma {:induction false} AccOfPrefix(q: Query, ds: seq<Driver>, es: seq<Driver>, n: nat)
    requires n <= |ds| && n <= |es| && forall i :: 0 <= i < n ==> ds[i] == es[i]
    ensures AccTo(q, ds, n) == AccTo(q, es, n)
  {
    if n > 0 {
      AccOfPrefix(q, ds, es, n - 1);
    }
  }

  lemma {:induction false} AccSkips(q: Query, ds: seq<Driver>, k: nat, n: nat)
    requires k < n <= |ds| && Contribution(q, ds[k]).None?
    ensures AccTo(q, DriversWithout(ds, k), n - 1) == AccTo(q, ds, n)
  {
    if n == k + 1 {
      AccOfPrefix(q, DriversWithout(ds, k), ds, k);
    } else {
      AccSkips(q, ds, k, n - 1);
      assert DriversWithout(ds, k)[n - 2] == ds[n - 1];
    }
  }

  lemma SilentIsRemoved(q: Query, ds: seq<Driver>, k: nat)
    requires k < |ds| && Contribution(q, ds[k]).None?
    ensures Resolved(q, DriversWithout(ds, k)) == Resolved(q, ds)
  {
    var es := DriversWithout(ds, k);
    AccSkips(q, ds, k, |ds|);
    forall i | 0 <= i < |ds| && Ends(q, ds[i]) ensures exists j :: 0 <= j < |es| && Ends(q, es[j]) {
      assert es[if i < k then i else i - 1] == ds[i];
    }
    forall j | 0 <= j < |es| && Ends(q, es[j]) ensures exists i :: 0 <= i < |ds| && Ends(q, ds[i]) {
      assert ds[if j < k then j else j + 1] == es[j];
    }
  }

  /** A driver of other bits, one that is skipped across a port, and one that shows z can be taken away
      without any change. */
  lemma OthersDoNotMatter(q: Query, ds: seq<Driver>, k: nat)
    requires k < |ds| && (!InRange(q, ds[k]) || Skipped(q, ds[k]) || Shown(q, ds[k]) == Z)
    ensures Resolved(q, DriversWithout(ds, k)) == Resolved(q, ds)
  {
    SilentIsRemoved(q, ds, k);
  }

  /** Nor does a value whose strength is high impedance. */
  lemma HighImpedanceDoesNotMatter(q: Query, ds: seq<Driver>, k: nat, s0: Level, s1: Level)
    requires k < |ds| && InRange(q, ds[k]) && HasSides(q.sig(ds[k].src), q.net, s0, s1)
    requires (Shown(q, ds[k]) == L && s0 == HIGHZ) || (Shown(q, ds[k]) == H && s1 == HIGHZ)
    ensures Resolved(q, DriversWithout(ds, k)) == Resolved(q, ds)
  {
    SilentIsRemoved(q, ds, k);
  }

  /** A driver of neither strength is as strong as the net, and where that has none either, strong. */
  function Side(own: Level, net: Level): Level {
    if own != NONE then own else if net != NONE then net else STRONG
  }

  /** What every strength of the driver amounts to: a driver without a 0-strength has those of the net. */
  predicate HasSides(s: Signal, net: Strength, s0: Level, s1: Level) {
    if s.strength.s0 == NONE then s0 == Side(NONE, net.s0) && s1 == Side(NONE, net.s1)
    else s0 == s.strength.s0 && s1 == Side(s.strength.s1, NONE)
  }

  lemma ContributionIs(q: Query, dr: Driver, s0: Level, s1: Level)
    requires InRange(q, dr) && !Skipped(q, dr) && HasSides(q.sig(dr.src), q.net, s0, s1) && s0 > HIGHZ && s1 > HIGHZ
    ensures Contribution(q, dr) == if Shown(q, dr) == Z then None else Some(Drive(Shown(q, dr), Strength(s0, s1)))
  {
  }

  /** A net with one driver has that driver's bit, at every bit the driver reaches; where it shows z, the
      net has its pull. */
  lemma OneDriver(q: Query, dr: Driver, s0: Level, s1: Level)
    requires InRange(q, dr) && !Skipped(q, dr) && HasSides(q.sig(dr.src), q.net, s0, s1) && s0 > HIGHZ && s1 > HIGHZ
    ensures Resolved(q, [dr]) ==
            if Shown(q, dr) != Z then Shown(q, dr)
            else if q.netType.Tri0? then L
            else if q.netType.Tri1? then H
            else Z
  {
    ContributionIs(q, dr, s0, s1);
    assert AccTo(q, [dr], 0) == START;
    assert Ends(q, [dr][0]) ==> Resolved(q, [dr]) == Shown(q, dr);
  }

  /** Without any driver for the bit the net has its pull. */
  lemma {:induction false} UndrivenIs(q: Query, ds: seq<Driver>)
    requires forall k :: 0 <= k < |ds| ==> !InRange(q, ds[k]) || Skipped(q, ds[k]) || Shown(q, ds[k]) == Z
    ensures Resolved(q, ds) == if q.netType.Tri0? then L else if q.netType.Tri1? then H else Z
    decreases |ds|
  {
    if ds != [] {
      OthersDoNotMatter(q, ds, 0);
      assert forall k :: 0 <= k < |ds| - 1 ==> DriversWithout(ds, 0)[k] == ds[k + 1];
      UndrivenIs(q, DriversWithout(ds, 0));
    }
  }

  /** On a wired-and net one low driver makes the value low, on a wired-or net one high driver makes it
      high, whatever the others are. */
  lemma WiredIs(q: Query, ds: seq<Driver>, k: nat, s0: Level, s1: Level)
    requires k < |ds| && InRange(q, ds[k]) && !Skipped(q, ds[k])
    requires HasSides(q.sig(ds[k].src), q.net, s0, s1) && s0 > HIGHZ && s1 > HIGHZ
    ensures (q.netType.Wand? || q.netType.Trior?) && Shown(q, ds[k]) == L ==> Resolved(q, ds) == L
    ensures (q.netType.Wor? || q.netType.Triand?) && Shown(q, ds[k]) == H ==> Resolved(q, ds) == H
  {
    ContributionIs(q, ds[k], s0, s1);
    if ((q.netType.Wand? || q.netType.Trior?) && Shown(q, ds[k]) == L) ||
       ((q.netType.Wor? || q.netType.Triand?) && Shown(q, ds[k]) == H) {
      assert Ends(q, ds[k]);
    }
  }

  /** Two drivers that disagree: the stronger one wins, each on the side of its value, and equal ones
      leave the value unknown. */
  lemma TwoDrivers(q: Query, d: Driver, e: Driver, d0: Level, d1: Level, e0: Level, e1: Level)
    requires Ordinary(q.netType) && InRange(q, d) && !Skipped(q, d) && InRange(q, e) && !Skipped(q, e)
    requires HasSides(q.sig(d.src), q.net, d0, d1) && d0 > HIGHZ && d1 > HIGHZ
    requires HasSides(q.sig(e.src), q.net, e0, e1) && e0 > HIGHZ && e1 > HIGHZ
    requires Shown(q, d) == L && Shown(q, e) == H
    ensures Resolved(q, [d, e]) == if d0 > e1 then L else if e1 > d0 then H else X
  {
    ContributionIs(q, d, d0, d1);
    ContributionIs(q, e, e0, e1);
    var ds := [d, e];
    assert AccTo(q, ds, 0) == START && AccTo(q, ds, 1) == Combine(START, Drive(L, Strength(d0, d1)));
    assert AccTo(q, ds, 2) == Combine(AccTo(q, ds, 1), Drive(H, Strength(e0, e1)));
    forall k | 0 <= k < |ds| ensures !Ends(q, ds[k]) {
    }
  }
}
