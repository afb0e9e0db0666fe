/** The license file: entries scattered over a fixed number of blocks, and how the server finds an
    entry and its user limit again. */
module LicenseFile {
  import opened Basics

  const NUMBLKS := 63
  const XIC_CODE := 11
  const XIC_DAEMON_CODE := 12
  const WRSPICE_CODE := 14

  type Byte = x: int | 0 <= x < 256

  /** What is to be licensed: an expiration time, a program, a user limit, or 0 for none, and the
      checksum over the address, the program, the host and the key. */
  datatype Entry<S> = Entry(death: nat, code: Byte, limit: Byte, sum: S)

  /** A block of the file: the four limit bytes are the program, a flag that there is a user limit,
      a user limit kept here for the entry with this number, and the number of the block where the
      user limit of this entry is kept. */
  datatype Block<S> = Block(timelim: nat, code: Byte, limited: Byte, users: Byte, link: Byte, sum: S)

  // ---- placing the entries ----

  /** The first block from j on that is not taken, or else past the last. */
  function NextFree(used: seq<nat>, j: nat): (r: nat)
    requires j <= NUMBLKS
    ensures j <= r <= NUMBLKS && (forall k :: j <= k < r ==> k in used) && (r < NUMBLKS ==> r !in used)
    decreases NUMBLKS - j
  {
    if j < NUMBLKS && j in used then NextFree(used, j + 1) else j
  }

  /** Where an entry goes: the drawn block, or the next free one, from the start again if need be. */
  function Probe(used: seq<nat>, draw: nat): nat {
    var j := NextFree(used, draw % NUMBLKS);
    if j == NUMBLKS then NextFree(used, 0) else j
  }

  /** The blocks of the first n entries. */
  function Slots(draws: nat -> nat, n: nat): (r: seq<nat>)
    ensures |r| == n
  {
    if n == 0 then [] else Slots(draws, n - 1) + [Probe(Slots(draws, n - 1), draws(n - 1))]
  }

  predicate Distinct(s: seq<nat>) {
    forall i, j :: 0 <= i < j < |s| ==> s[i] != s[j]
  }

  lemma {:induction false} SmallSet(n: nat, s: set<nat>)
    requires forall k: nat :: k < n ==> k in s
    ensures |s| >= n
  {
    if n > 0 {
      SmallSet(n - 1, s - {n - 1});
    }
  }

  lemma {:induction false} FewInSequence(s: seq<nat>, n: nat)
    requires n <= |s|
    ensures |set i | 0 <= i < n :: s[i]| <= n
  {
    if n > 0 {
      FewInSequence(s, n - 1);
      assert (set i | 0 <= i < n :: s[i]) == (set i | 0 <= i < n - 1 :: s[i]) + {s[n - 1]};
    }
  }

  /** As long as not all blocks are taken, probing finds a free one. */
  lemma ProbeFindsFree(used: seq<nat>, draw: nat)
    requires |used| < NUMBLKS
    ensures Probe(used, draw) < NUMBLKS && Probe(used, draw) !in used
  {
    if NextFree(used, 0) == NUMBLKS {
      var s := set i | 0 <= i < |used| :: used[i];
      forall k: nat | k < NUMBLKS ensures k in s {
        assert k in used;
      }
      SmallSet(NUMBLKS, s);
      FewInSequence(used, |used|);
    }
  }

  /** Whatever is drawn, all entries go to different blocks. */
  lemma {:induction false} SlotsAreDistinct(draws: nat -> nat, n: nat)
    requires n <= NUMBLKS
    ensures Distinct(Slots(draws, n)) && forall e :: 0 <= e < n ==> Slots(draws, n)[e] < NUMBLKS
  {
    if n > 0 {
      SlotsAreDistinct(draws, n - 1);
      ProbeFindsFree(Slots(draws, n - 1), draws(n - 1));
    }
  }

  /** An entry goes to the drawn block if that is free, or else to the first free one after it, or else
      to the first free one of all. */
  lemma ProbeIs(used: seq<nat>, draw: nat)
    requires |used| < NUMBLKS
    ensures var d, p := draw % 63, Probe(used, draw);
      && p !in used && p < 63
      && (d !in used ==> p == d)
      && (p >= d ==> forall k :: d <= k < p ==> k in used)
      && (p < d ==> (forall k :: d <= k < 63 ==> k in used) && forall k :: 0 <= k < p ==> k in used)
  {
    ProbeFindsFree(used, draw);
  }

  // ---- writing the file ----

  function SetBlk<S>(e: Entry<S>, number: Byte, key16: Byte): Block<S> {
    Block(e.death, e.code, if e.limit != 0 then 1 else 0, key16, number, e.sum)
  }

  /** The user limit kept in block i: that of entry i if it has one, and a small one where servers
      of an older release look for it; any other block keeps what it has. */
  function UsersAt<S>(tr: seq<Entry<S>>, i: nat, own: Byte): Byte {
    if i < |tr| && tr[i].limit != 0 then tr[i].limit
    else if i == XIC_CODE || i == XIC_DAEMON_CODE || i == WRSPICE_CODE then 2
    else own
  }

  /** What becomes of a block that was written as b. */
  function Finished<S>(tr: seq<Entry<S>>, i: nat, b: Block<S>): Block<S> {
    b.(users := UsersAt(tr, i, b.users))
  }

  predicate Marks(done: seq<bool>, used: seq<nat>) {
    |done| == NUMBLKS && forall k :: 0 <= k < NUMBLKS ==> (done[k] <==> k in used)
  }

  method FirstFree(done: array<bool>, from: nat, ghost used: seq<nat>) returns (j: nat)
    requires Marks(done[..], used) && from <= NUMBLKS
    ensures j == NextFree(used, from)
  {
    j := from;
    while j < NUMBLKS
      invariant from <= j <= NUMBLKS && NextFree(used, from) == NextFree(used, j)
    {
      assert done[..][j] == done[j];
      if !done[j] {
        return;
      }
      j := j + 1;
    }
  }

  /** The checksum over all blocks, with the one of the last block itself set to none. */
  datatype Seal<!S> = Seal(none: S, sum: seq<Block<S>> -> S)

  function Unsealed<S>(bs: seq<Block<S>>, seal: Seal<S>): seq<Block<S>>
    requires |bs| == NUMBLKS + 1
  {
    bs[NUMBLKS := bs[NUMBLKS].(sum := seal.none)]
  }

  predicate Sealed<S(==)>(bs: seq<Block<S>>, seal: Seal<S>)
    requires |bs| == NUMBLKS + 1
  {
    bs[NUMBLKS].sum == seal.sum(Unsealed(bs, seal))
  }

  /** Write the blocks: the entries where the draws send them, numbered in their order, and made-up
      blocks everywhere else; then the user limits, and the checksum over all of it. */
  method MakeLicense<S>(tr: seq<Entry<S>>, draws: nat -> nat, bogus: nat -> Block<S>, key16: Byte, seal: Seal<S>,
                        blocks: array<Block<S>>)
    returns (ok: bool)
    requires blocks.Length == NUMBLKS + 1
    modifies blocks
    ensures ok <==> |tr| <= NUMBLKS
    ensures !ok ==> blocks[..] == old(blocks[..])
    ensures ok ==> Written(blocks[..], tr, draws, bogus, key16) && Sealed(blocks[..], seal)
  {
    if |tr| > NUMBLKS {
      return false;
    }
    ok := true;
    var done := PlaceAll(tr, draws, key16, blocks);
    FillRest(done, Slots(draws, |tr|), bogus, blocks);
    SetUsers(tr, blocks);
    PutSeal(blocks, seal);
  }

  /** Zero the checksum of the last block, and then set it. */
  method PutSeal<S>(blocks: array<Block<S>>, seal: Seal<S>)
    requires blocks.Length == NUMBLKS + 1
    modifies blocks
    ensures Sealed(blocks[..], seal)
    ensures blocks[NUMBLKS] == old(blocks[NUMBLKS]).(sum := blocks[NUMBLKS].sum)
    ensures forall i :: 0 <= i < NUMBLKS ==> blocks[i] == old(blocks[i])
  {
    blocks[NUMBLKS] := blocks[NUMBLKS].(sum := seal.none);
    ghost var bs := blocks[..];
    blocks[NUMBLKS] := blocks[NUMBLKS].(sum := seal.sum(blocks[..]));
    assert Unsealed(blocks[..], seal) == bs;
  }

  /** The server's test of a file it has read: take the checksum out, and compute it again. */
  method CheckSeal<S(==)>(blocks: array<Block<S>>, seal: Seal<S>) returns (ok: bool)
    requires blocks.Length == NUMBLKS + 1
    modifies blocks
    ensures ok <==> Sealed(old(blocks[..]), seal)
    ensures blocks[..] == Unsealed(old(blocks[..]), seal)
  {
    var sum := blocks[NUMBLKS].sum;
    blocks[NUMBLKS] := blocks[NUMBLKS].(sum := seal.none);
    assert blocks[..] == Unsealed(old(blocks[..]), seal);
    ok := sum == seal.sum(blocks[..]);
  }

  ghost predicate EntriesIn<S>(bs: seq<Block<S>>, tr: seq<Entry<S>>, slots: seq<nat>, key16: Byte)
    requires |bs| == NUMBLKS + 1 && |slots| <= |tr| <= NUMBLKS
  {
    forall e :: 0 <= e < |slots| ==> slots[e] < NUMBLKS && bs[slots[e]] == SetBlk(tr[e], e, key16)
  }

  ghost predicate Written<S>(bs: seq<Block<S>>, tr: seq<Entry<S>>, draws: nat -> nat, bogus: nat -> Block<S>, key16: Byte)
    requires |bs| == NUMBLKS + 1 && |tr| <= NUMBLKS
  {
    var slots := Slots(draws, |tr|);
    && (forall e :: 0 <= e < |tr| ==>
          slots[e] < NUMBLKS && bs[slots[e]] == Finished(tr, slots[e], SetBlk(tr[e], e, key16)))
    && (forall i :: 0 <= i < NUMBLKS && i !in slots ==> bs[i] == Finished(tr, i, bogus(i)))
    && bs[NUMBLKS].(sum := bogus(NUMBLKS).sum) == Finished(tr, NUMBLKS, bogus(NUMBLKS))
  }

  method Choose(done: array<bool>, draw: nat, ghost used: seq<nat>) returns (j: nat)
    requires Marks(done[..], used) && |used| < NUMBLKS
    ensures j == Probe(used, draw) && j < NUMBLKS && j !in used
  {
    ProbeFindsFree(used, draw);
    j := draw % NUMBLKS;
    assert done[..][j] == done[j];
    if done[j] {
      j := FirstFree(done, j, used);
      if j == NUMBLKS {
        j := FirstFree(done, 0, used);
      }
    }
  }

  method PlaceAll<S>(tr: seq<Entry<S>>, draws: nat -> nat, key16: Byte, blocks: array<Block<S>>) returns (done: array<bool>)
    requires blocks.Length == NUMBLKS + 1 && |tr| <= NUMBLKS
    modifies blocks
    ensures fresh(done) && Marks(done[..], Slots(draws, |tr|))
    ensures EntriesIn(blocks[..], tr, Slots(draws, |tr|), key16)
  {
    done := new bool[NUMBLKS](_ => false);
    ghost var slots: seq<nat> := [];
    for i := 0 to |tr|
      invariant slots == Slots(draws, i) && Marks(done[..], slots)
      invariant EntriesIn(blocks[..], tr, slots, key16)
    {
      var j := Choose(done, draws(i), slots);
      MarksFurther(done[..], slots, j);
      EntriesFurther(blocks[..], tr, slots, key16, j);
      ghost var ds, bs := done[..][j := true], blocks[..][j := SetBlk(tr[i], i, key16)];
      done[j] := true;
      blocks[j] := SetBlk(tr[i], i, key16);
      assert done[..] == ds && blocks[..] == bs;
      slots := slots + [j];
    }
  }

  lemma MarksFurther(done: seq<bool>, used: seq<nat>, j: nat)
    requires Marks(done, used) && j < NUMBLKS
    ensures Marks(done[j := true], used + [j])
  {
  }

  lemma EntriesFurther<S>(bs: seq<Block<S>>, tr: seq<Entry<S>>, slots: seq<nat>, key16: Byte, j: nat)
    requires |bs| == NUMBLKS + 1 && |slots| < |tr| <= NUMBLKS && j < NUMBLKS && j !in slots
    requires EntriesIn(bs, tr, slots, key16)
    ensures EntriesIn(bs[j := SetBlk(tr[|slots|], |slots|, key16)], tr, slots + [j], key16)
  {
  }

  method FillRest<S>(done: array<bool>, ghost slots: seq<nat>, bogus: nat -> Block<S>, blocks: array<Block<S>>)
    requires blocks.Length == NUMBLKS + 1 && Marks(done[..], slots)
    requires forall e :: 0 <= e < |slots| ==> slots[e] < NUMBLKS
    modifies blocks
    ensures forall i :: 0 <= i <= NUMBLKS ==> blocks[i] == if i in slots then old(blocks[i]) else bogus(i)
  {
    for i := 0 to NUMBLKS
      invariant forall k :: 0 <= k < i ==> blocks[k] == if k in slots then old(blocks[k]) else bogus(k)
      invariant forall k :: i <= k <= NUMBLKS ==> blocks[k] == old(blocks[k])
    {
      assert done[..][i] == done[i];
      if !done[i] {
        blocks[i] := bogus(i);
      }
    }
    blocks[NUMBLKS] := bogus(NUMBLKS);
  }

  method SetUsers<S>(tr: seq<Entry<S>>, blocks: array<Block<S>>)
    requires blocks.Length == NUMBLKS + 1 && |tr| <= NUMBLKS
    modifies blocks
    ensures forall i :: 0 <= i <= NUMBLKS ==> blocks[i] == Finished(tr, i, old(blocks[i]))
  {
    blocks[XIC_CODE] := blocks[XIC_CODE].(users := 2);
    blocks[XIC_DAEMON_CODE] := blocks[XIC_DAEMON_CODE].(users := 2);
    blocks[WRSPICE_CODE] := blocks[WRSPICE_CODE].(users := 2);
    for i := 0 to |tr|
      invariant forall k :: 0 <= k <= NUMBLKS ==>
                  blocks[k] == old(blocks[k]).(users := UsersAt(tr[..i], k, old(blocks[k]).users))
    {
      if tr[i].limit != 0 {
        blocks[i] := blocks[i].(users := tr[i].limit);
      }
    }
    assert tr[..|tr|] == tr;
  }

  // ---- reading the file ----

  /** The first block with a checksum, if there is one. */
  method FindBlock<S(==)>(blocks: seq<Block<S>>, sum: S) returns (r: Option<nat>)
    requires |blocks| == NUMBLKS + 1
    ensures r.Some? ==> r.value < NUMBLKS && blocks[r.value].sum == sum && forall i :: 0 <= i < r.value ==> blocks[i].sum != sum
    ensures r.None? ==> forall i :: 0 <= i < NUMBLKS ==> blocks[i].sum != sum
  {
    var i := 0;
    while i < NUMBLKS
      invariant i <= NUMBLKS && forall k :: 0 <= k < i ==> blocks[k].sum != sum
    {
      if blocks[i].sum == sum {
        return Some(i);
      }
      i := i + 1;
    }
    return None;
  }

  /** The user limit that the server applies to a block: none, or what the linked block keeps. */
  function LimitOf<S>(blocks: seq<Block<S>>, b: Block<S>): Option<Byte>
    requires |blocks| == NUMBLKS + 1
  {
    if b.limited == 0 then None
    else if b.link < |blocks| then Some(blocks[b.link].users)
    else None
  }

  /** Nothing else in the file has the checksum of entry e. */
  ghost predicate OwnSum<S(!new)>(tr: seq<Entry<S>>, bogus: nat -> Block<S>, e: nat)
    requires e < |tr|
  {
    && (forall f :: 0 <= f < |tr| && f != e ==> tr[f].sum != tr[e].sum)
    && (forall i :: bogus(i).sum != tr[e].sum)
  }

  /** For every sequence of draws: the server finds an entry by its checksum in the block where it
      was put, and that block leads it to the entry's own user limit. */
  lemma EntryIsFound<S(!new)>(bs: seq<Block<S>>, tr: seq<Entry<S>>, draws: nat -> nat, bogus: nat -> Block<S>,
                              key16: Byte, e: nat)
    requires |bs| == NUMBLKS + 1 && |tr| <= NUMBLKS && Written(bs, tr, draws, bogus, key16)
    requires e < |tr| && OwnSum(tr, bogus, e)
    ensures var p := Slots(draws, |tr|)[e];
            && p < NUMBLKS && (forall i :: 0 <= i < NUMBLKS ==> (bs[i].sum == tr[e].sum <==> i == p))
            && bs[p].timelim == tr[e].death && bs[p].code == tr[e].code
            && LimitOf(bs, bs[p]) == if tr[e].limit == 0 then None else Some(tr[e].limit)
  {
    var slots := Slots(draws, |tr|);
    SlotsAreDistinct(draws, |tr|);
    forall i | 0 <= i < NUMBLKS && bs[i].sum == tr[e].sum ensures i == slots[e] {
      if i in slots {
        var f :| 0 <= f < |slots| && slots[f] == i;
      }
    }
    if tr[e].limit != 0 {
      KeptForEntry(bs, tr, draws, bogus, key16, e);
    }
  }

  /** What is written passes the server's test, and taking the checksum out leaves every block that
      is searched as it was. */
  lemma WrittenIsAccepted<S>(bs: seq<Block<S>>, tr: seq<Entry<S>>, draws: nat -> nat, bogus: nat -> Block<S>,
                             key16: Byte, seal: Seal<S>)
    requires |bs| == NUMBLKS + 1 && |tr| <= NUMBLKS && Written(bs, tr, draws, bogus, key16)
    ensures Written(Unsealed(bs, seal), tr, draws, bogus, key16)
  {
    SlotsAreDistinct(draws, |tr|);
  }

  /** Servers of an older release find a limit of two users for the three programs, unless the entry
      with that number keeps its own there. */
  lemma OldServersSeeTwo<S>(bs: seq<Block<S>>, tr: seq<Entry<S>>, draws: nat -> nat, bogus: nat -> Block<S>, key16: Byte, i: nat)
    requires |bs| == NUMBLKS + 1 && |tr| <= NUMBLKS && Written(bs, tr, draws, bogus, key16)
    requires i == 11 || i == 12 || i == 14
    ensures bs[i].users == if i < |tr| && tr[i].limit != 0 then tr[i].limit else 2
  {
    var slots := Slots(draws, |tr|);
    if i in slots {
      var f :| 0 <= f < |slots| && slots[f] == i;
      assert bs[slots[f]] == Finished(tr, slots[f], SetBlk(tr[f], f, key16));
    }
  }

  /** Block e keeps the user limit of entry e, whatever else was written there. */
  lemma KeptForEntry<S>(bs: seq<Block<S>>, tr: seq<Entry<S>>, draws: nat -> nat, bogus: nat -> Block<S>, key16: Byte, e: nat)
    requires |bs| == NUMBLKS + 1 && |tr| <= NUMBLKS && Written(bs, tr, draws, bogus, key16)
    requires e < |tr| && tr[e].limit != 0
    ensures bs[e].users == tr[e].limit
  {
    var slots := Slots(draws, |tr|);
    if e in slots {
      var f :| 0 <= f < |slots| && slots[f] == e;
      assert bs[slots[f]] == Finished(tr, slots[f], SetBlk(tr[f], f, key16));
    }
  }
}
