/** What several parts of the model use. */
module Basics {

  datatype Option<+T> = None | Some(value: T)

  lemma Assoc<T>(p: seq<T>, q: seq<T>, r: seq<T>)
    ensures (p + q) + r == p + (q + r)
  {
  }

  /** A character in lower case. */
  function Lower(c: char): char {
    if 'A' <= c <= 'Z' then (c as int - 'A' as int + 'a' as int) as char else c
  }

  // ---- parts of a sequence ----

  predicate Ascends(at: seq<nat>) {
    forall i, j :: 0 <= i < j < |at| ==> at[i] < at[j]
  }

  /** r has the entries of s at these places, in their order. */
  ghost predicate PicksAt<T>(s: seq<T>, at: seq<nat>, r: seq<T>) {
    && |r| == |at| && Ascends(at)
    && forall i :: 0 <= i < |at| ==> at[i] < |s| && r[i] == s[at[i]]
  }

  function Shifted(at: seq<nat>): (r: seq<nat>)
    ensures |r| == |at| && forall i :: 0 <= i < |at| ==> r[i] == at[i] + 1
  {
    seq(|at|, i requires 0 <= i < |at| => at[i] + 1)
  }

  lemma ShiftedHas(at: seq<nat>)
    ensures forall k: nat :: k in Shifted(at) <==> k > 0 && k - 1 in at
  {
    forall k: nat ensures k in Shifted(at) <==> k > 0 && k - 1 in at {
      if k > 0 && k - 1 in at {
        var i :| 0 <= i < |at| && at[i] == k - 1;
        assert Shifted(at)[i] == k;
      }
    }
  }

  /** One entry more in front, which is left out. */
  lemma PicksSkipping<T>(s: seq<T>, at: seq<nat>, r: seq<T>)
    requires s != [] && PicksAt(s[1..], at, r)
    ensures PicksAt(s, Shifted(at), r)
  {
  }

  /** One entry more in front, which is taken. */
  lemma PicksTaking<T>(s: seq<T>, at: seq<nat>, r: seq<T>)
    requires s != [] && PicksAt(s[1..], at, r)
    ensures PicksAt(s, [0] + Shifted(at), [s[0]] + r)
  {
  }

  /** One entry more in front, taken or not, with the places. */
  lemma PickFirst<T>(s: seq<T>, take: bool, at: seq<nat>, r: seq<T>) returns (more: seq<nat>)
    requires s != [] && PicksAt(s[1..], at, r)
    ensures PicksAt(s, more, (if take then [s[0]] else []) + r)
    ensures forall k: nat :: k in more <==> if k == 0 then take else k - 1 in at
  {
    ShiftedHas(at);
    if take {
      PicksTaking(s, at, r);
      more := [0] + Shifted(at);
      assert forall k: nat :: k in more <==> k == 0 || k in Shifted(at);
    } else {
      PicksSkipping(s, at, r);
      assert [] + r == r;
      more := Shifted(at);
    }
  }

  /** r has the entries of s that are wanted, in their order. */
  ghost predicate Selects<T>(s: seq<T>, wanted: T -> bool, at: seq<nat>, r: seq<T>) {
    PicksAt(s, at, r) && forall k: nat :: k in at <==> k < |s| && wanted(s[k])
  }

  lemma SelectFirst<T>(s: seq<T>, wanted: T -> bool, at: seq<nat>, r: seq<T>) returns (more: seq<nat>)
    requires s != [] && Selects(s[1..], wanted, at, r)
    ensures Selects(s, wanted, more, (if wanted(s[0]) then [s[0]] else []) + r)
  {
    more := PickFirst(s, wanted(s[0]), at, r);
    forall k: nat ensures k in more <==> k < |s| && wanted(s[k]) {
      if 0 < k < |s| {
        assert s[1..][k - 1] == s[k];
      }
    }
  }
}
