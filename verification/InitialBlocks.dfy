/** The structured semantics and the stack scheduler joined: an initial block, run by the scheduler
    loop over its frames, leaves the store that its structured meaning gives. */
module InitialBlocks {
  import opened Basics
  import opened Actions
  import opened Flat
  import opened Views
  import opened Scheduling
  import opened Unfolding

  /** Designs without delays and listeners never leave a residue. */
  lemma {:induction false} NoResidues<S>(m: Meaning<S>, f: State<World<S>>, rs: seq<bool>)
    ensures Run(f, Unfold(m), rs) == Run(f, Unfold(m), Falses(|rs|))
    decreases rs
  {
    if rs == [] {
      assert Falses(0) == [];
    } else {
      SameStep(m, f, rs[0]);
      NoResidues(m, Step(f, Unfold(m), rs[0]), rs[1..]);
      assert Falses(|rs|)[1..] == Falses(|rs| - 1);
    }
  }

  lemma SameStep<S>(m: Meaning<S>, f: State<World<S>>, residue: bool)
    ensures Step(f, Unfold(m), residue) == Step(f, Unfold(m), false)
  {
  }

  /** The initial block becomes the running process, with the counter of its body reset. */
  lemma InitialStarts<S>(m: Meaning<S>, f: State<World<S>>, t: Task)
    requires !f.stopped && f.running == [] && f.trig == [] && f.ready == [One(t)] && t.stmt.Initial? && Proper(t.stmt.body)
    ensures Step(f, Unfold(m), false) == f.(ready := [], running := SetUp(t.stmt.body, t.ctx),
                                            world := World(Tick(f.world.out), Reset([t.stmt.body], f.world.counts)))
  {
    BodyIsSetUp(m, t, f.world);
  }

  lemma BodyIsSetUp<S>(m: Meaning<S>, t: Task, w: World<S>)
    requires t.stmt.Initial? && Proper(t.stmt.body)
    ensures NowTasks(m, t, w) == SetUp(t.stmt.body, t.ctx) == Fresh([], NowTasks(m, t, w))
  {
    var body := t.stmt.body;
    OneIsSetUp(body, t.ctx);
    assert SetUp(body, t.ctx) + [] == SetUp(body, t.ctx) == [] + SetUp(body, t.ctx);
    SetUpIsFresh(body, t.ctx);
  }

  lemma OneIsSetUp(s: Stmt, ctx: set<nat>)
    ensures SetUpAll([s], ctx) == SetUp(s, ctx)
  {
    assert [s][1..] == [];
  }

  lemma SetUpIsFresh(s: Stmt, ctx: set<nat>)
    requires Proper(s)
    ensures Fresh([], SetUp(s, ctx)) == SetUp(s, ctx)
  {
    assert [] + SetUp(s, ctx) == SetUp(s, ctx);
    FreshIsAll([], SetUp(s, ctx));
  }

  lemma {:induction false} ResetTwice(s: Stmt, counts: map<nat, int>)
    ensures Reset([s], Reset([s], counts)) == Reset([s], counts)
  {
    assert [s][1..] == [];
  }

  /** A run of the flat machine on an initial block alone, to its end. */
  lemma {:induction false} InitialRuns<S>(m: Meaning<S>, f: State<World<S>>, t: Task, rs: seq<bool>)
    requires !f.stopped && f.running == [] && f.trig == [] && f.ready == [One(t)] && t.stmt.Initial? && Proper(t.stmt.body)
    requires rs != [] && Finished(Run(f, Unfold(m), rs))
    ensures Big(m, t.stmt.body, Tick(f.world.out), 3 * |rs|) == Some(Run(f, Unfold(m), rs).world.out)
  {
    var n := |rs| - 1;
    NoResidues(m, f, rs);
    InitialStarts(m, f, t);
    var g := Step(f, Unfold(m), false);
    FirstStep(f, Unfold(m), n);
    ResetTwice(t.stmt.body, f.world.counts);
    QueueRunsStructured(m, g, t.stmt.body, t.ctx, n);
    BigMono(m, t.stmt.body, Tick(f.world.out), 3 * n + 1, 3 * |rs|);
  }

  lemma FirstStep<W>(f: State<W>, eval: Evaluator<W>, n: nat)
    ensures Run(f, eval, Falses(n + 1)) == Run(Step(f, eval, false), eval, Falses(n))
  {
    assert Falses(n + 1)[0] == false && Falses(n + 1)[1..] == Falses(n);
  }

  /** The scheduler on one queued initial block: when its loop ends by itself, the store and the trace
      are those of the structured semantics of the body. */
  method RunInitial<S(!new)>(s: Scheduler<World<S>>, ghost m: Meaning<S>, ghost t: Task, fuel: nat) returns (status: Status)
    requires s.Sound() && !s.stopped && s.eval == Unfold(m) && s.lists.trig == []
    requires s.active == [Plain(t)] && t.stmt.Initial? && Proper(t.stmt.body)
    modifies s
    ensures status == Going ==> exists n :: Big(m, t.stmt.body, Tick(old(s.world).out), n) == Some(s.world.out)
  {
    ghost var f, rs, end := s.Idle(), [], s.Idle();
    assert Queue([Plain(t)]) == [One(t)];
    status, rs, end := s.DoActions(fuel);
    if status == Going {
      assert rs == [] ==> end == f;
      InitialRuns(m, f, t, rs);
    }
  }
}
