/** Non-blocking assignments in the scheduler: from the statements that sample, whatever runs between
    them, through the promotion of the update list to the end of the batch. */
module Updates {
  import opened Basics
  import opened Actions
  import opened Flat
  import opened Nonblocking
  import Timing

  /** What a plain statement does: it is a non-blocking assignment, which samples and queues a new
      statement object; it is the k-th object so queued; or it is something else. */
  datatype Role = Samples | Carries(k: nat) | Else

  /** The non-blocking assignments of a design, the roles of its plain statements, what a change of
      the store triggers, and an arbitrary evaluator for all other statements. */
  datatype Design<!V> = Design(
    src: Source<V>,
    role: nat -> Role,
    update: nat -> nat,                      // the id of the k-th queued object
    raises: (Store<V>, Store<V>) -> seq<Trig>,
    others: Evaluator<Store<V>>)

  /** The store, the sample that each statement keeps, and all updates queued so far. */
  datatype Desk<V> = Desk(store: Store<V>, temps: map<nat, seq<V>>, made: seq<Update>)

  /** Other statements leave the update list alone, and disable nothing. */
  ghost predicate Proper<V(!new)>(d: Design<V>) {
    && Nonblocking.Fits(d.src)
    && (forall k :: d.role(d.update(k)) == Carries(k))
    && (forall t, store, now :: var e := d.others(t, store, now); e.nbau == [] && e.disabled.None?)
  }

  function RoleOf<V>(d: Design<V>, t: Task): Role {
    if t.stmt.Prim? then d.role(t.stmt.id) else Else
  }

  function Sampling<V>(d: Design<V>, t: Task, w: Desk<V>): Desk<V>
    requires t.stmt.Prim?
  {
    var id := t.stmt.id;
    Desk(w.store, w.temps[id := d.src.value(id, w.store)], w.made + [Update(id, d.src.target(id, w.store))])
  }

  /** The store after the k-th queued object has been evaluated: it reads its statement's sample as
      it is then. */
  function Carrying<V>(w: Desk<V>, k: nat): Store<V> {
    if k < |w.made| && w.made[k].stmt in w.temps && |w.temps[w.made[k].stmt]| == |w.made[k].cells|
    then Written(w.store, w.made[k].cells, w.temps[w.made[k].stmt])
    else w.store
  }

  function Evaluates<V>(d: Design<V>): Evaluator<Desk<V>> {
    (t: Task, w: Desk<V>, now: nat) =>
      match RoleOf(d, t)
      case Samples =>
        Effect(Sampling(d, t, w), [], [], [], [], [Task(Prim(d.update(|w.made|)), t.ctx)], [], [], None, Done, false)
      case Carries(k) =>
        var store := Carrying(w, k);
        Effect(w.(store := store), [], [], d.raises(w.store, store), [], [], [], [], None, Done, false)
      case Else =>
        var e := d.others(t, w.store, now);
        Effect(w.(store := e.world), e.now, e.later, e.trig, e.zdly, e.nbau, e.mon, e.next, e.disabled, e.outcome, e.stop)
  }

  // ---- the active region ----

  /** What a move samples, if it evaluates a non-blocking assignment. */
  function SampledBy<V>(d: Design<V>, f: State<Desk<V>>, m: Move): seq<Assign<V>> {
    var t := Timing.Evaluated(f, m);
    if t.Some? && t.value.stmt.Prim? && RoleOf(d, t.value).Samples?
    then [Assign(d.src.target(t.value.stmt.id, f.world.store), d.src.value(t.value.stmt.id, f.world.store))]
    else []
  }

  /** What the non-blocking assignments of a play mean: the values of their right sides for the
      targets of their left sides, both at the time they run. */
  function Sampled<V>(d: Design<V>, f: State<Desk<V>>, ms: seq<Move>): seq<Assign<V>>
    decreases ms
  {
    if ms == [] then [] else SampledBy(d, f, ms[0]) + Sampled(d, Played(f, Evaluates(d), ms[0]), ms[1..])
  }

  /** A play before the update list is promoted: there is zero-delay work at every promotion, and no
      other slot begins. */
  predicate BeforeUpdates<V>(d: Design<V>, f: State<Desk<V>>, ms: seq<Move>)
    decreases ms
  {
    ms == [] ||
    (&& !ms[0].Advance? && (ms[0].Promote? ==> f.zdly != [])
     && BeforeUpdates(d, Played(f, Evaluates(d), ms[0]), ms[1..]))
  }

  /** The list has the updates made from the lo-th on. */
  predicate Lists<V>(d: Design<V>, q: seq<Item>, lo: nat, hi: nat) {
    && lo <= hi && |q| == hi - lo
    && forall i :: 0 <= i < |q| ==> q[i].One? && q[i].task.stmt == Prim(d.update(lo + i))
  }

  /** The samples are those of the latest run of each statement. */
  ghost predicate Holding<V>(d: Design<V>, temps: map<nat, seq<V>>, us: seq<Update>, asg: seq<Assign<V>>) {
    && Means(asg, us)
    && (forall i :: 0 <= i < |us| ==> |us[i].cells| == d.src.width(us[i].stmt))
    && forall id :: id in Nonblocking.Samples(us, asg) ==> id in temps && temps[id] == Nonblocking.Samples(us, asg)[id]
  }

  ghost predicate Collected<V>(d: Design<V>, f: State<Desk<V>>, lo: nat, asg: seq<Assign<V>>) {
    Lists(d, f.nbau, lo, |f.world.made|) && Holding(d, f.world.temps, f.world.made[lo..], asg)
  }

  lemma HoldingPush<V(!new)>(d: Design<V>, w: Desk<V>, t: Task, us: seq<Update>, asg: seq<Assign<V>>)
    requires Nonblocking.Fits(d.src) && t.stmt.Prim? && Holding(d, w.temps, us, asg)
    ensures var id := t.stmt.id;
      Holding(d, Sampling(d, t, w).temps, us + [Update(id, d.src.target(id, w.store))],
              asg + [Assign(d.src.target(id, w.store), d.src.value(id, w.store))])
  {
    var id := t.stmt.id;
    var us', asg' := us + [Update(id, d.src.target(id, w.store))], asg + [Assign(d.src.target(id, w.store), d.src.value(id, w.store))];
    assert us'[..|us|] == us && asg'[..|asg|] == asg;
  }

  lemma ListsPush<V(!new)>(d: Design<V>, q: seq<Item>, lo: nat, hi: nat, ctx: set<nat>)
    requires Proper(d) && Lists(d, q, lo, hi)
    ensures var t := Task(Prim(d.update(hi)), ctx); PutAll(q, [t]) == q + [One(t)] && Lists(d, PutAll(q, [t]), lo, hi + 1)
  {
    var t := Task(Prim(d.update(hi)), ctx);
    forall i | 0 <= i < |q| ensures q[i].task.stmt != t.stmt {
      assert d.role(d.update(lo + i)) == Carries(lo + i) && d.role(d.update(hi)) == Carries(hi);
    }
    assert [t][1..] == [];
    assert PutAll(q, [t]) == PutAll(Put(q, t), []);
  }

  /** An evaluation changes the update list and the values as it says, wherever the statement ran. */
  lemma ExecAppends<W>(f: State<W>, t: Task, inProcess: bool, eval: Evaluator<W>, residue: bool)
    requires eval(t, f.world, f.time).disabled.None?
    ensures var e, g := eval(t, f.world, f.time), Exec(f, t, inProcess, eval, residue);
      g.nbau == PutAll(f.nbau, e.nbau) && g.world == e.world
  {
  }

  lemma EvaluationCollects<V(!new)>(d: Design<V>, f: State<Desk<V>>, t: Task, inProcess: bool, residue: bool, lo: nat, asg: seq<Assign<V>>)
    requires Proper(d) && Collected(d, f, lo, asg)
    ensures var g := Exec(f, t, inProcess, Evaluates(d), residue);
      Collected(d, g, lo, asg + (if t.stmt.Prim? && RoleOf(d, t).Samples?
                                 then [Assign(d.src.target(t.stmt.id, f.world.store), d.src.value(t.stmt.id, f.world.store))]
                                 else []))
  {
    var w := f.world;
    assert d.others(t, w.store, f.time).nbau == [];
    ExecAppends(f, t, inProcess, Evaluates(d), residue);
    if t.stmt.Prim? && RoleOf(d, t).Samples? {
      ListsPush(d, f.nbau, lo, |w.made|, t.ctx);
      HoldingPush(d, w, t, w.made[lo..], asg);
      assert Sampling(d, t, w).made[lo..] == w.made[lo..] + [Update(t.stmt.id, d.src.target(t.stmt.id, w.store))];
    } else {
      assert asg + [] == asg;
    }
  }

  lemma StepCollects<V(!new)>(d: Design<V>, f: State<Desk<V>>, residue: bool, lo: nat, asg: seq<Assign<V>>)
    requires Proper(d) && Collected(d, f, lo, asg)
    ensures Collected(d, Step(f, Evaluates(d), residue), lo, asg + SampledBy(d, f, Take(residue)))
  {
    assert asg + [] == asg;
    if f.stopped || Finished(f) || Splices(f) {
    } else if f.running != [] {
      EvaluationCollects(d, f.(running := f.running[1..]), f.running[0], true, residue, lo, asg);
    } else if f.ready != [] && f.ready[0].One? {
      EvaluationCollects(d, f.(ready := f.ready[1..]), f.ready[0].task, false, residue, lo, asg);
    }
  }

  lemma {:induction false} PlayCollects<V(!new)>(d: Design<V>, f: State<Desk<V>>, ms: seq<Move>, lo: nat, asg: seq<Assign<V>>)
    requires Proper(d) && Collected(d, f, lo, asg) && BeforeUpdates(d, f, ms)
    ensures Collected(d, Play(f, Evaluates(d), ms), lo, asg + Sampled(d, f, ms))
    decreases ms
  {
    if ms == [] {
      assert asg + [] == asg;
    } else {
      var g, one := Played(f, Evaluates(d), ms[0]), SampledBy(d, f, ms[0]);
      if ms[0].Take? {
        StepCollects(d, f, ms[0].residue, lo, asg);
      } else {
        assert asg + [] == asg;
      }
      PlayCollects(d, g, ms[1..], lo, asg + one);
      Assoc(asg, one, Sampled(d, g, ms[1..]));
    }
  }

  // ---- the update region ----

  function TasksOf(q: seq<Item>): (ts: seq<Task>)
    requires forall i :: 0 <= i < |q| ==> q[i].One?
    ensures |ts| == |q| && Ones(ts) == q && forall i :: 0 <= i < |ts| ==> ts[i] == q[i].task
  {
    seq(|q|, i requires 0 <= i < |q| => q[i].task)
  }

  predicate Carriers<V>(d: Design<V>, ts: seq<Task>, lo: nat) {
    forall i :: 0 <= i < |ts| ==> ts[i].stmt == Prim(d.update(lo + i))
  }

  /** Evaluating the queued objects one by one is carrying the updates out one by one. */
  lemma {:induction false} CarriersUpdate<V(!new)>(d: Design<V>, w: Desk<V>, ts: seq<Task>, lo: nat, now: nat)
    requires Proper(d) && Carriers(d, ts, lo) && lo + |ts| == |w.made| && Matched(w.made[lo..], w.temps)
    ensures Worlds(w, ts, Evaluates(d), now) == w.(store := Updated(w.store, w.made[lo..], w.temps))
    decreases ts
  {
    if ts != [] {
      var us := w.made[lo..];
      assert us[0] == w.made[lo] && us[1..] == w.made[lo + 1..];
      assert d.role(d.update(lo + 0)) == Carries(lo) && ts[0].stmt == Prim(d.update(lo + 0));
      var w' := w.(store := Carrying(w, lo));
      forall i | 0 <= i < |ts[1..]| ensures ts[1..][i].stmt == Prim(d.update(lo + 1 + i)) {
        assert ts[1..][i] == ts[i + 1];
      }
      CarriersUpdate(d, w', ts[1..], lo + 1, now);
    }
  }

  lemma CarriersAreQuiet<V(!new)>(d: Design<V>, ts: seq<Task>, lo: nat)
    requires Proper(d) && Carriers(d, ts, lo)
    ensures forall i :: 0 <= i < |ts| ==> Quiet(ts[i], Evaluates(d))
  {
    forall i | 0 <= i < |ts| ensures Quiet(ts[i], Evaluates(d)) {
      assert ts[i].stmt == Prim(d.update(lo + i)) && d.role(d.update(lo + i)) == Carries(lo + i);
      assert RoleOf(d, ts[i]) == Carries(lo + i);
    }
  }

  /** From a point with an empty update list, through whatever runs in the active and the zero-delay
      region, to the end of the updates: no process gets control while they run, and if none is
      spoiled, the store they leave is what the region had left with all sampled values assigned at
      once. */
  lemma RegionIsSimultaneous<V(!new)>(d: Design<V>, f: State<Desk<V>>, ms: seq<Move>, n: nat)
    requires Proper(d) && f.nbau == [] && BeforeUpdates(d, f, ms)
    requires var g := Play(f, Evaluates(d), ms);
      InOrder(g, Promote) && g.zdly == [] && g.nbau != [] && n == |g.nbau|
    ensures |f.world.made| <= |Play(f, Evaluates(d), ms).world.made|
    ensures var g := Play(f, Evaluates(d), ms);
            var asg, us := Sampled(d, f, ms), g.world.made[|f.world.made|..];
            var h := Run(Played(g, Evaluates(d), Promote), Evaluates(d), Falses(n));
      && |us| == n && Means(asg, us) && Matched(us, g.world.temps)
      && h.running == [] && h.ready == [] && !h.stopped
      && h.world == g.world.(store := Updated(g.world.store, us, g.world.temps))
      && (Safe(us) ==> Simultaneous(g.world.store, asg, h.world.store))
  {
    var eval, lo, none := Evaluates(d), |f.world.made|, [];
    assert f.world.made[lo..] == [];
    PlayCollects(d, f, ms, lo, none);
    assert none + Sampled(d, f, ms) == Sampled(d, f, ms);
    PromotedUpdates(d, Play(f, eval, ms), lo, Sampled(d, f, ms));
  }

  lemma PromotedUpdates<V(!new)>(d: Design<V>, g: State<Desk<V>>, lo: nat, asg: seq<Assign<V>>)
    requires Proper(d) && Collected(d, g, lo, asg) && InOrder(g, Promote) && g.zdly == [] && g.nbau != []
    ensures var us, n := g.world.made[lo..], |g.nbau|;
            var h := Run(Played(g, Evaluates(d), Promote), Evaluates(d), Falses(n));
      && |us| == n && Matched(us, g.world.temps)
      && h.running == [] && h.ready == [] && !h.stopped
      && h.world == g.world.(store := Updated(g.world.store, us, g.world.temps))
      && (Safe(us) ==> Simultaneous(g.world.store, asg, h.world.store))
  {
    var eval, us, n, ts := Evaluates(d), g.world.made[lo..], |g.nbau|, TasksOf(g.nbau);
    var p := Played(g, eval, Promote);
    CarriersAreQuiet(d, ts, lo);
    BatchRunsWhole(p, eval, ts, n);
    assert ts[n..] == [] && ts[..n] == ts;
    CarryOutMeans(g.world.store, us, asg, g.world.temps);
    CarriersUpdate(d, g.world, ts, lo, g.time);
  }
}
