/** Non-blocking assignments. Each statement keeps the value it sampled in a variable of its own,
    and the queued update reads that variable when it is carried out. */
module Nonblocking {
  import opened Basics
  import opened Actions
  import opened Flat

  /** One bit of one variable. */
  type Cell = (nat, nat)

  type Store<V> = map<Cell, V>

  /** A queued update: the statement whose sample it will read, and the bits it will write; the
      indices on the left were evaluated when it was queued. */
  datatype Update = Update(stmt: nat, cells: seq<Cell>)

  /** An assignment of values to bits. */
  datatype Assign<V> = Assign(cells: seq<Cell>, values: seq<V>)

  function Written<V>(store: Store<V>, cells: seq<Cell>, values: seq<V>): Store<V>
    requires |cells| == |values|
    decreases cells
  {
    if cells == [] then store else Written(store[cells[0] := values[0]], cells[1..], values[1..])
  }

  predicate Matched<V>(us: seq<Update>, temps: map<nat, seq<V>>) {
    forall i :: 0 <= i < |us| ==> us[i].stmt in temps && |temps[us[i].stmt]| == |us[i].cells|
  }

  /** The source's update phase: one update after the other, each reading its statement's variable. */
  function Updated<V>(store: Store<V>, us: seq<Update>, temps: map<nat, seq<V>>): Store<V>
    requires Matched(us, temps)
    decreases us
  {
    if us == [] then store
    else
      assert Matched(us[1..], temps);
      Updated(Written(store, us[0].cells, temps[us[0].stmt]), us[1..], temps)
  }

  // ---- the reference: all assignments at once ----

  predicate Even<V>(asg: seq<Assign<V>>) {
    forall i :: 0 <= i < |asg| ==> |asg[i].cells| == |asg[i].values|
  }

  /** The last place among the assignments that writes c: which assignment, and where in it. */
  function LastWrite(parts: seq<seq<Cell>>, c: Cell): Option<(nat, nat)> {
    if parts == [] then None
    else
      var last := parts[|parts| - 1];
      if c in last then Some((|parts| - 1, LastIndex(last, c))) else LastWrite(parts[..|parts| - 1], c)
  }

  function LastIndex(cells: seq<Cell>, c: Cell): (k: nat)
    requires c in cells
    ensures k < |cells| && cells[k] == c && forall j :: k < j < |cells| ==> cells[j] != c
    decreases |cells|
  {
    if cells[|cells| - 1] == c then |cells| - 1 else LastIndex(cells[..|cells| - 1], c)
  }

  function CellsOf<V>(asg: seq<Assign<V>>): (r: seq<seq<Cell>>)
    ensures |r| == |asg| && forall i :: 0 <= i < |asg| ==> r[i] == asg[i].cells
  {
    seq(|asg|, i requires 0 <= i < |asg| => asg[i].cells)
  }

  lemma {:induction false} LastWriteIs(parts: seq<seq<Cell>>, c: Cell)
    ensures LastWrite(parts, c).None? <==> forall i :: 0 <= i < |parts| ==> c !in parts[i]
    ensures LastWrite(parts, c).Some? ==>
              var (i, k) := LastWrite(parts, c).value;
              && i < |parts| && k < |parts[i]| && parts[i][k] == c
              && (forall j :: i < j < |parts| ==> c !in parts[j])
              && (forall j :: k < j < |parts[i]| ==> parts[i][j] != c)
    decreases |parts|
  {
    if parts != [] && c !in parts[|parts| - 1] {
      LastWriteIs(parts[..|parts| - 1], c);
      assert forall i :: 0 <= i < |parts| - 1 ==> parts[..|parts| - 1][i] == parts[i];
    }
  }

  /** The simultaneous assignment: every bit takes the value that the last assignment to write it
      gives it, and keeps its own when none does. */
  ghost predicate Simultaneous<V>(before: Store<V>, asg: seq<Assign<V>>, after: Store<V>)
    requires Even(asg)
  {
    && (forall c :: c in after <==> c in before || LastWrite(CellsOf(asg), c).Some?)
    && forall c :: c in after ==> after[c] == ValueOf(before, asg, c)
  }

  function ValueOf<V>(before: Store<V>, asg: seq<Assign<V>>, c: Cell): V
    requires Even(asg) && (c in before || LastWrite(CellsOf(asg), c).Some?)
  {
    LastWriteIs(CellsOf(asg), c);
    match LastWrite(CellsOf(asg), c)
    case None => before[c]
    case Some(p) => asg[p.0].values[p.1]
  }

  lemma LastIndexTail(cells: seq<Cell>, c: Cell)
    requires c in cells
    ensures c in cells[1..] ==> LastIndex(cells, c) == LastIndex(cells[1..], c) + 1
    ensures c !in cells[1..] ==> LastIndex(cells, c) == 0
  {
    var tail := cells[1..];
    assert forall j :: 0 <= j < |tail| ==> tail[j] == cells[j + 1];
    assert forall j :: 0 < j < |cells| ==> cells[j] == tail[j - 1];
  }

  lemma {:induction false} WrittenIs<V>(store: Store<V>, cells: seq<Cell>, values: seq<V>)
    requires |cells| == |values|
    ensures Written(store, cells, values).Keys == store.Keys + set c | c in cells
    ensures forall c :: c in Written(store, cells, values) ==>
              Written(store, cells, values)[c] == if c in cells then values[LastIndex(cells, c)] else store[c]
    decreases cells
  {
    if cells != [] {
      WrittenIs(store[cells[0] := values[0]], cells[1..], values[1..]);
      forall c | c in cells ensures c in cells[1..] ==> LastIndex(cells, c) == LastIndex(cells[1..], c) + 1
                            ensures c !in cells[1..] ==> LastIndex(cells, c) == 0 {
        LastIndexTail(cells, c);
      }
    }
  }

  /** The assignments that the queue amounts to when it is carried out with these samples. */
  function Carried<V>(us: seq<Update>, temps: map<nat, seq<V>>): (r: seq<Assign<V>>)
    requires Matched(us, temps)
    ensures |r| == |us| && Even(r)
    ensures forall i :: 0 <= i < |us| ==> r[i] == Assign(us[i].cells, temps[us[i].stmt])
  {
    seq(|us|, i requires 0 <= i < |us| => Assign(us[i].cells, temps[us[i].stmt]))
  }

  lemma {:induction false} UpdatedConcat<V>(store: Store<V>, p: seq<Update>, u: Update, temps: map<nat, seq<V>>)
    requires Matched(p + [u], temps)
    ensures Matched(p, temps) && u.stmt in temps && |temps[u.stmt]| == |u.cells|
    ensures Updated(store, p + [u], temps) == Written(Updated(store, p, temps), u.cells, temps[u.stmt])
    decreases p
  {
    assert (p + [u])[|p|] == u;
    assert forall i :: 0 <= i < |p| ==> (p + [u])[i] == p[i];
    if p == [] {
      assert [u][1..] == [];
    } else {
      assert (p + [u])[1..] == p[1..] + [u];
      UpdatedConcat(Written(store, p[0].cells, temps[p[0].stmt]), p[1..], u, temps);
    }
  }

  lemma LastWritePush<V>(asg: seq<Assign<V>>, a: Assign<V>, c: Cell)
    ensures LastWrite(CellsOf(asg + [a]), c) ==
            if c in a.cells then Some((|asg|, LastIndex(a.cells, c))) else LastWrite(CellsOf(asg), c)
  {
    assert CellsOf(asg + [a])[..|asg|] == CellsOf(asg);
  }

  /** One more assignment written out is one more assignment at the end of the simultaneous ones. */
  lemma SimultaneousPush<V>(before: Store<V>, asg: seq<Assign<V>>, mid: Store<V>, a: Assign<V>)
    requires Even(asg) && |a.cells| == |a.values| && Simultaneous(before, asg, mid)
    ensures Even(asg + [a]) && Simultaneous(before, asg + [a], Written(mid, a.cells, a.values))
  {
    var after := Written(mid, a.cells, a.values);
    WrittenIs(mid, a.cells, a.values);
    forall c ensures c in after <==> c in before || LastWrite(CellsOf(asg + [a]), c).Some? {
      LastWritePush(asg, a, c);
      assert c in after <==> c in mid || c in a.cells;
    }
    forall c | c in after ensures after[c] == ValueOf(before, asg + [a], c) {
      LastWritePush(asg, a, c);
      if c !in a.cells {
        LastWriteIs(CellsOf(asg), c);
        assert mid[c] == ValueOf(before, asg, c);
      }
    }
  }

  /** For every batch: carrying the updates out one by one is one simultaneous assignment of what
      the statements' variables hold at that time. */
  lemma {:induction false} BatchIsSimultaneous<V>(store: Store<V>, us: seq<Update>, temps: map<nat, seq<V>>)
    requires Matched(us, temps)
    ensures Simultaneous(store, Carried(us, temps), Updated(store, us, temps))
    decreases |us|
  {
    if us != [] {
      var p, u := us[..|us| - 1], us[|us| - 1];
      assert us == p + [u];
      UpdatedConcat(store, p, u, temps);
      BatchIsSimultaneous(store, p, temps);
      SimultaneousPush(store, Carried(p, temps), Updated(store, p, temps), Assign(u.cells, temps[u.stmt]));
      assert Carried(us, temps) == Carried(p, temps) + [Assign(u.cells, temps[u.stmt])];
    }
  }

  // ---- sampling ----

  /** The assignments that were meant: what each update's statement sampled when it was queued. */
  predicate Means<V>(asg: seq<Assign<V>>, us: seq<Update>) {
    Even(asg) && |asg| == |us| && forall i :: 0 <= i < |us| ==> asg[i].cells == us[i].cells
  }

  /** A statement writes as many bits each time it runs. */
  predicate SameWidths(us: seq<Update>) {
    forall i, j :: 0 <= i < j < |us| && us[i].stmt == us[j].stmt ==> |us[i].cells| == |us[j].cells|
  }

  /** The samples left in the statements' variables: for each statement, its latest. */
  function Samples<V>(us: seq<Update>, asg: seq<Assign<V>>): map<nat, seq<V>>
    requires Means(asg, us)
    decreases |us|
  {
    if us == [] then map[]
    else
      var n := |us| - 1;
      Samples(us[..n], asg[..n])[us[n].stmt := asg[n].values]
  }

  predicate IsLatest(us: seq<Update>, i: nat)
    requires i < |us|
  {
    forall j :: i < j < |us| ==> us[j].stmt != us[i].stmt
  }

  /** The variable of an update's statement holds what some update of that statement, not an
      earlier one, has sampled. */
  lemma {:induction false} SampleIs<V>(us: seq<Update>, asg: seq<Assign<V>>, i: nat) returns (j: nat)
    requires Means(asg, us) && i < |us|
    ensures i <= j < |us| && us[j].stmt == us[i].stmt && (IsLatest(us, i) ==> j == i)
    ensures us[i].stmt in Samples(us, asg) && Samples(us, asg)[us[i].stmt] == asg[j].values
    decreases |us|
  {
    var n := |us| - 1;
    if us[n].stmt == us[i].stmt {
      j := n;
    } else {
      j := SampleIs(us[..n], asg[..n], i);
      assert us[..n][j] == us[j] && us[..n][i] == us[i] && asg[..n][j] == asg[j];
      if IsLatest(us, i) {
        LatestInPrefix(us, n, i);
      }
    }
  }

  lemma LatestInPrefix(us: seq<Update>, n: nat, i: nat)
    requires i < n <= |us| && IsLatest(us, i)
    ensures IsLatest(us[..n], i)
  {
  }

  lemma SamplesAre<V>(us: seq<Update>, asg: seq<Assign<V>>)
    requires Means(asg, us) && SameWidths(us)
    ensures Matched(us, Samples(us, asg))
    ensures forall i :: 0 <= i < |us| && IsLatest(us, i) ==> Samples(us, asg)[us[i].stmt] == asg[i].values
  {
    forall i | 0 <= i < |us|
      ensures us[i].stmt in Samples(us, asg) && |Samples(us, asg)[us[i].stmt]| == |us[i].cells|
      ensures IsLatest(us, i) ==> Samples(us, asg)[us[i].stmt] == asg[i].values
    {
      var j := SampleIs(us, asg, i);
      assert |asg[j].values| == |us[j].cells| == |us[i].cells|;
    }
  }

  /** No update is spoiled: whenever a statement is queued again, every bit that its earlier update
      writes is written again, by whichever statement, later in the batch. */
  predicate Safe(us: seq<Update>) {
    forall i, j :: 0 <= i < j < |us| && us[i].stmt == us[j].stmt ==>
      forall c :: c in us[i].cells ==> exists k :: i < k < |us| && c in us[k].cells
  }

  /** A batch with no spoiled update assigns simultaneously what was meant. */
  lemma SafeBatch<V>(store: Store<V>, us: seq<Update>, asg: seq<Assign<V>>)
    requires Means(asg, us) && SameWidths(us) && Safe(us)
    ensures Matched(us, Samples(us, asg))
    ensures Simultaneous(store, asg, Updated(store, us, Samples(us, asg)))
  {
    var temps := Samples(us, asg);
    SamplesAre(us, asg);
    BatchIsSimultaneous(store, us, temps);
    assert CellsOf(asg) == CellsOf(Carried(us, temps));
    forall c | LastWrite(CellsOf(asg), c).Some?
      ensures ValueOf(store, asg, c) == ValueOf(store, Carried(us, temps), c)
    {
      LastWriteIs(CellsOf(asg), c);
      var (i, k) := LastWrite(CellsOf(asg), c).value;
      assert c in us[i].cells;
      assert IsLatest(us, i);
    }
  }

  /** In particular one in which every statement was queued at most once. */
  lemma OnceIsSafe(us: seq<Update>)
    requires forall i, j :: 0 <= i < j < |us| ==> us[i].stmt != us[j].stmt
    ensures Safe(us) && SameWidths(us)
  {
  }

  /** A spoiled update is a wrong one: with two different values to tell the samples apart, some
      samples make the batch assign something else than what was meant. */
  lemma SpoiledBatch<V>(store: Store<V>, us: seq<Update>, x: V, y: V) returns (asg: seq<Assign<V>>)
    requires SameWidths(us) && !Safe(us) && x != y
    ensures Means(asg, us) && Matched(us, Samples(us, asg))
    ensures !Simultaneous(store, asg, Updated(store, us, Samples(us, asg)))
  {
    var i, j, c :| 0 <= i < j < |us| && us[i].stmt == us[j].stmt && c in us[i].cells
                   && forall k :: i < k < |us| ==> c !in us[k].cells;
    asg := Marked(us, i, x, y);
    SamplesAre(us, asg);
    LatestExists(us, j);
    var l :| j <= l < |us| && us[l].stmt == us[j].stmt && IsLatest(us, l);
    SpoiledAt(store, us, asg, Samples(us, asg), i, l, c);
  }

  /** Samples that tell update i from all the others. */
  function Marked<V>(us: seq<Update>, i: nat, x: V, y: V): (asg: seq<Assign<V>>)
    ensures Means(asg, us)
    ensures forall n, m :: 0 <= n < |us| && 0 <= m < |us[n].cells| ==> asg[n].values[m] == if n == i then x else y
  {
    seq(|us|, n requires 0 <= n < |us| => Assign(us[n].cells, seq(|us[n].cells|, m => if n == i then x else y)))
  }

  /** Bit c was last written by update i, but its statement's sample is by now that of update l. */
  lemma SpoiledAt<V>(store: Store<V>, us: seq<Update>, asg: seq<Assign<V>>, temps: map<nat, seq<V>>, i: nat, l: nat, c: Cell)
    requires Means(asg, us) && Matched(us, temps)
    requires i < l < |us| && us[l].stmt == us[i].stmt && temps[us[i].stmt] == asg[l].values
    requires c in us[i].cells && forall k :: i < k < |us| ==> c !in us[k].cells
    requires forall m :: 0 <= m < |us[i].cells| ==> asg[i].values[m] != asg[l].values[m]
    ensures !Simultaneous(store, asg, Updated(store, us, temps))
  {
    BatchIsSimultaneous(store, us, temps);
    assert CellsOf(asg) == CellsOf(Carried(us, temps));
    LastWriteIs(CellsOf(asg), c);
    assert CellsOf(asg)[i] == us[i].cells;
    var p := LastWrite(CellsOf(asg), c).value;
    assert p.0 == i;
    var after := Updated(store, us, temps);
    assert c in after && after[c] == ValueOf(store, Carried(us, temps), c) == asg[l].values[p.1];
    assert ValueOf(store, asg, c) == asg[i].values[p.1];
  }

  lemma {:induction false} LatestExists(us: seq<Update>, j: nat)
    requires j < |us|
    ensures exists l :: j <= l < |us| && us[l].stmt == us[j].stmt && IsLatest(us, l)
    decreases |us| - j
  {
    if !IsLatest(us, j) {
      var k :| j < k < |us| && us[k].stmt == us[j].stmt;
      LatestExists(us, k);
    }
  }

  /** Exactly the safe batches assign simultaneously what was meant, whatever was sampled. */
  lemma ExactlyTheSafeBatches<V(!new)>(store: Store<V>, us: seq<Update>, x: V, y: V)
    requires SameWidths(us) && x != y
    ensures Safe(us) <==>
            forall asg: seq<Assign<V>> :: Means(asg, us) ==>
              Matched(us, Samples(us, asg)) && Simultaneous(store, asg, Updated(store, us, Samples(us, asg)))
  {
    if Safe(us) {
      forall asg: seq<Assign<V>> | Means(asg, us)
        ensures Matched(us, Samples(us, asg)) && Simultaneous(store, asg, Updated(store, us, Samples(us, asg)))
      {
        SafeBatch(store, us, asg);
      }
    } else {
      var asg := SpoiledBatch(store, us, x, y);
      assert Means(asg, us);
    }
  }

  /** A loop that runs one statement for two elements of a vector: both get the second value. */
  lemma LoopIsSpoiled()
    ensures var us := [Update(1, [(0, 0)]), Update(1, [(0, 1)])];
            var asg := [Assign([(0, 0)], [7]), Assign([(0, 1)], [8])];
            && Means(asg, us) && Matched(us, Samples(us, asg))
            && Updated(map[], us, Samples(us, asg)) == map[(0, 0) := 8, (0, 1) := 8]
  {
    var us := [Update(1, [(0, 0)]), Update(1, [(0, 1)])];
    var asg := [Assign([(0, 0)], [7]), Assign([(0, 1)], [8])];
    assert SameWidths(us);
    SamplesAre(us, asg);
    assert IsLatest(us, 1);
    var t := Samples(us, asg);
    assert us[1..] == [us[1]] && us[1..][1..] == [];
    assert Written(map[], [(0, 0)], [8]) == map[(0, 0) := 8];
    assert Written(map[(0, 0) := 8], [(0, 1)], [8]) == map[(0, 0) := 8, (0, 1) := 8];
  }

  // ---- the statements at work ----

  /** What a non-blocking statement reads: its right side and its target bits, both evaluated when
      the statement runs. */
  datatype Source<!V> = Source(
    width: nat -> nat,
    value: (nat, Store<V>) -> seq<V>,
    target: (nat, Store<V>) -> seq<Cell>)

  ghost predicate Fits<V(!new)>(src: Source<V>) {
    forall id, store :: |src.value(id, store)| == |src.target(id, store)| == src.width(id)
  }

  /** The store, each statement's sample, and the queue of the update region. */
  class Batch<V(!new)> {
    const src: Source<V>
    var store: Store<V>
    var temps: map<nat, seq<V>>
    var queue: seq<Update>
    ghost var meant: seq<Assign<V>>   // what each queued statement sampled when it ran

    constructor (src: Source<V>, store: Store<V>)
      ensures this.src == src && this.store == store && Valid()
      ensures queue == [] && meant == []
    {
      this.src, this.store, temps, queue, meant := src, store, map[], [], [];
    }

    ghost predicate Valid()
      reads this
    {
      && Means(meant, queue)
      && (forall i :: 0 <= i < |queue| ==> |queue[i].cells| == src.width(queue[i].stmt))
      && forall id :: id in Samples(queue, meant) ==> id in temps && temps[id] == Samples(queue, meant)[id]
    }

    /** A non-blocking statement runs: it samples now and queues its update. */
    method Queue(id: nat)
      requires Valid() && Fits(src)
      modifies this
      ensures Valid() && store == old(store)
      ensures queue == old(queue) + [Update(id, src.target(id, store))]
      ensures meant == old(meant) + [Assign(src.target(id, store), src.value(id, store))]
    {
      ghost var q, a := queue, meant;
      temps := temps[id := src.value(id, store)];
      queue := queue + [Update(id, src.target(id, store))];
      meant := meant + [Assign(src.target(id, store), src.value(id, store))];
      assert queue[..|q|] == q && meant[..|q|] == a;
    }

    /** The update region: every update in turn, from the samples of the moment. If no update was
        spoiled, this is the simultaneous assignment of what was meant. */
    method CarryOut()
      requires Valid()
      modifies this
      ensures Valid() && queue == [] && temps == old(temps)
      ensures Matched(old(queue), temps) && store == Updated(old(store), old(queue), temps)
      ensures Simultaneous(old(store), Carried(old(queue), temps), store)
      ensures Safe(old(queue)) ==> Simultaneous(old(store), old(meant), store)
    {
      CarryOutMeans(store, queue, meant, temps);
      UpdateAll();
      queue, meant := [], [];
    }

    /** Every queued update in turn. */
    method UpdateAll()
      requires Matched(queue, temps)
      modifies `store
      ensures store == Updated(old(store), queue, temps)
    {
      var i := 0;
      while i < |queue|
        invariant 0 <= i <= |queue| && Matched(queue[i..], temps)
        invariant Updated(store, queue[i..], temps) == Updated(old(store), queue, temps)
      {
        assert queue[i..][0] == queue[i] && queue[i..][1..] == queue[i + 1..];
        store := Written(store, queue[i].cells, temps[queue[i].stmt]);
        i := i + 1;
      }
    }
  }

  lemma CarryOutMeans<V>(store: Store<V>, us: seq<Update>, asg: seq<Assign<V>>, temps: map<nat, seq<V>>)
    requires Means(asg, us) && SameWidths(us)
    requires forall id :: id in Samples(us, asg) ==> id in temps && temps[id] == Samples(us, asg)[id]
    ensures Matched(us, temps)
    ensures Simultaneous(store, Carried(us, temps), Updated(store, us, temps))
    ensures Safe(us) ==> Simultaneous(store, asg, Updated(store, us, temps))
  {
    SamplesAre(us, asg);
    BatchIsSimultaneous(store, us, temps);
    if Safe(us) {
      SafeBatch(store, us, asg);
      SameSamples(store, us, temps, Samples(us, asg));
    }
  }

  lemma {:induction false} SameSamples<V>(store: Store<V>, us: seq<Update>, t: map<nat, seq<V>>, u: map<nat, seq<V>>)
    requires Matched(us, t) && Matched(us, u)
    requires forall i :: 0 <= i < |us| ==> t[us[i].stmt] == u[us[i].stmt]
    ensures Updated(store, us, t) == Updated(store, us, u)
    decreases us
  {
    if us != [] {
      SameSamples(Written(store, us[0].cells, t[us[0].stmt]), us[1..], t, u);
    }
  }

  // ---- the batch in the scheduler ----

  /** A statement that sets up nothing and lets the run go on: an update is one. */
  ghost predicate Quiet<W(!new)>(t: Task, eval: Evaluator<W>) {
    && !IsBlock(t.stmt) && !t.stmt.Disable?
    && forall w: W, now: nat :: eval(t, w, now).now == [] && !eval(t, w, now).stop
  }

  function Worlds<W>(w: W, ts: seq<Task>, eval: Evaluator<W>, now: nat): W
    decreases ts
  {
    if ts == [] then w else Worlds(eval(ts[0], w, now).world, ts[1..], eval, now)
  }

  /** No process woken by a batch resumes before all of it is carried out: while the updates run,
      nothing else does, what they trigger only collects, and no process gets control. */
  lemma {:induction false} BatchRunsWhole<W(!new)>(f: State<W>, eval: Evaluator<W>, ts: seq<Task>, n: nat)
    requires !f.stopped && f.running == [] && f.ready == Ones(ts) && n <= |ts|
    requires forall i :: 0 <= i < |ts| ==> Quiet(ts[i], eval)
    ensures var g := Run(f, eval, Falses(n));
            && g.running == [] && g.ready == Ones(ts[n..]) && !g.stopped
            && f.trig <= g.trig
            && g.world == Worlds(f.world, ts[..n], eval, f.time)
    decreases n
  {
    if n == 0 {
      assert Falses(0) == [];
    } else {
      var g := Step(f, eval, false);
      QuietStep(f, eval, ts);
      BatchRunsWhole(g, eval, ts[1..], n - 1);
      assert Falses(n)[1..] == Falses(n - 1) && Falses(n)[0] == false;
      assert ts[..n][1..] == ts[1..][..n - 1] && ts[n..] == ts[1..][n - 1..];
    }
  }

  lemma QuietStep<W(!new)>(f: State<W>, eval: Evaluator<W>, ts: seq<Task>)
    requires !f.stopped && f.running == [] && ts != [] && f.ready == Ones(ts) && Quiet(ts[0], eval)
    ensures var g := Step(f, eval, false);
            && g.running == [] && g.ready == Ones(ts[1..]) && !g.stopped && g.time == f.time
            && f.trig <= g.trig && g.world == eval(ts[0], f.world, f.time).world
  {
    var t := ts[0];
    var e := eval(t, f.world, f.time);
    assert f.ready[0] == One(t) && f.ready[1..] == Ones(ts[1..]);
    assert Ones(Fresh([], e.now)) + f.ready[1..] == f.ready[1..];
    RaisedKeeps(f.trig, f.waiting, e.trig);
  }

  lemma {:induction false} RaisedKeeps(q: seq<Item>, ws: seq<Waiter<Item>>, ts: seq<Trig>)
    ensures q <= RaisedTrig(q, ws, ts)
    decreases ts
  {
    if ts != [] {
      match ts[0]
      case Rouse(t) => RaisedKeeps(Put(q, t), ws, ts[1..]);
      case Wake(ev) => RaisedKeeps(q + Woken(ws, ev), Asleep(ws, ev), ts[1..]);
    }
  }
}
