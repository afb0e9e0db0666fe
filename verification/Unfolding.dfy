/** Control statements unfold one level at a time: evaluating one only queues its parts. Here the
    queue is proved to run exactly what a direct, structured semantics runs: the same assignments
    in the same order to the same store, in the same number of evaluations. */
module Unfolding {
  import opened Basics
  import opened Actions
  import opened Flat

  /** The meaning of expressions and of plain statements. */
  datatype Meaning<!S> = Meaning(
    value: (nat, S) -> int,            // a condition or count, as an int
    matches: (nat, nat, S) -> bool,    // case subject against case label
    run: (nat, S) -> S)                // a plain statement

  /** Store, plain statements run so far, and number of evaluations so far. */
  datatype Out<S> = Out(store: S, trace: seq<nat>, evals: nat)

  /** Out, with the loop counters that repeat statements keep in themselves. */
  datatype World<S> = World(out: Out<S>, counts: map<nat, int>)

  function Tick<S>(o: Out<S>): Out<S> {
    o.(evals := o.evals + 1)
  }

  // ---- what the source does: set up and evaluate ----

  /** Setting a statement up queues it; a for loop queues its initial assignment first. */
  function SetUp(s: Stmt, ctx: set<nat>): seq<Task> {
    match s
    case Begin(id, _) => [Task(s, ctx + {id})]
    case For(_, i, _, _, _) => (if i.Some? then [Task(i.value, ctx)] else []) + [Task(s, ctx)]
    case _ => [Task(s, ctx)]
  }

  function SetUpAll(ss: seq<Stmt>, ctx: set<nat>): seq<Task> {
    if ss == [] then [] else SetUp(ss[0], ctx) + SetUpAll(ss[1..], ctx)
  }

  /** Setting up a repeat statement resets its counter. */
  function Reset(ss: seq<Stmt>, counts: map<nat, int>): map<nat, int> {
    if ss == [] then counts
    else Reset(ss[1..], if ss[0].Repeat? then counts[ss[0].id := -1] else counts)
  }

  /** The arm of a case statement that is set up: the first one with a matching label, or else
      every default arm. */
  function Chosen<S>(m: Meaning<S>, subject: nat, items: seq<CaseItem>, store: S): seq<Stmt> {
    if exists i :: 0 <= i < |items| && Matching(m, subject, items[i], store)
    then FirstMatch(m, subject, items, store)
    else Defaults(items)
  }

  predicate Matching<S>(m: Meaning<S>, subject: nat, item: CaseItem, store: S) {
    !item.isDefault && exists k :: 0 <= k < |item.labels| && m.matches(subject, item.labels[k], store)
  }

  function FirstMatch<S>(m: Meaning<S>, subject: nat, items: seq<CaseItem>, store: S): seq<Stmt> {
    if items == [] then []
    else if Matching(m, subject, items[0], store) then PartList(items[0].part)
    else FirstMatch(m, subject, items[1..], store)
  }

  function Defaults(items: seq<CaseItem>): seq<Stmt> {
    if items == [] then []
    else (if items[0].isDefault then PartList(items[0].part) else []) + Defaults(items[1..])
  }

  function CountOf(counts: map<nat, int>, id: nat): int {
    if id in counts then counts[id] else -1
  }

  /** The statements that an evaluation sets up, and whether it then queues itself again. */
  function Parts<S>(m: Meaning<S>, s: Stmt, w: World<S>): (seq<Stmt>, bool) {
    match s
    case Initial(_, b) => ([b], false)
    case Always(_, b) => ([b], true)
    case Begin(_, ss) => (ss, false)
    case If(_, c, p, q) => (PartList(if m.value(c, w.out.store) != 0 then p else q), false)
    case Case(_, c, items) => (Chosen(m, c, items, w.out.store), false)
    case Forever(_, b) => ([b], true)
    case Repeat(id, c, b) =>
      var n := if CountOf(w.counts, id) < 0 then m.value(c, w.out.store) else CountOf(w.counts, id);
      if n > 0 then ([b], n > 1) else ([], false)
    case While(_, c, p) => if m.value(c, w.out.store) != 0 then (PartList(p), true) else ([], false)
    case For(_, _, c, n, p) =>
      if m.value(c, w.out.store) != 0 then (PartList(p) + PartList(n), true) else ([], false)
    case _ => ([], false)
  }

  function Counted<S>(m: Meaning<S>, s: Stmt, w: World<S>): map<nat, int> {
    if s.Repeat? then
      var n := if CountOf(w.counts, s.id) < 0 then m.value(s.count, w.out.store) else CountOf(w.counts, s.id);
      w.counts[s.id := if n > 0 then n - 1 else n]
    else w.counts
  }

  function NowTasks<S>(m: Meaning<S>, t: Task, w: World<S>): seq<Task> {
    var (parts, again) := Parts(m, t.stmt, w);
    SetUpAll(parts, t.ctx) + if again then [t] else []
  }

  function NextWorld<S>(m: Meaning<S>, t: Task, w: World<S>): World<S> {
    var o := Tick(w.out);
    World(if t.stmt.Prim? then o.(store := m.run(t.stmt.id, o.store), trace := o.trace + [t.stmt.id]) else o,
          Reset(Parts(m, t.stmt, w).0, Counted(m, t.stmt, w)))
  }

  /** The evaluator of listener-free, zero-delay designs: it only appends to the active list. */
  function Unfold<S>(m: Meaning<S>): Evaluator<World<S>> {
    (t: Task, w: World<S>, now: nat) =>
      Effect(NextWorld(m, t, w), NowTasks(m, t, w), [], [], [], [], [], [], None, Done, false)
  }

  // ---- the reference: structured semantics, with fuel for loops that may not end ----

  function Big<S>(m: Meaning<S>, s: Stmt, o: Out<S>, fuel: nat): Option<Out<S>>
    decreases fuel, 0, 0
  {
    if fuel == 0 then None
    else match s
      case Prim(id) => Some(Tick(o).(store := m.run(id, o.store), trace := o.trace + [id]))
      case Begin(_, ss) => BigSeq(m, ss, Tick(o), fuel - 1)
      case If(_, c, p, q) => BigSeq(m, PartList(if m.value(c, o.store) != 0 then p else q), Tick(o), fuel - 1)
      case Case(_, c, items) => BigSeq(m, Chosen(m, c, items, o.store), Tick(o), fuel - 1)
      case Repeat(_, c, b) =>
        var n := m.value(c, o.store);
        if n <= 0 then Some(Tick(o)) else BigTimes(m, n, b, o, fuel - 1)
      case Forever(_, b) => BigLoop(m, None, [b], o, fuel - 1)
      case While(_, c, p) => BigLoop(m, Some(c), PartList(p), o, fuel - 1)
      case For(_, i, c, n, p) =>
        (match BigSeq(m, PartList(i), o, fuel - 1)
         case None => None
         case Some(o1) => BigLoop(m, Some(c), PartList(p) + PartList(n), o1, fuel - 1))
      case _ => None
  }

  function BigSeq<S>(m: Meaning<S>, ss: seq<Stmt>, o: Out<S>, fuel: nat): Option<Out<S>>
    decreases fuel, 1, |ss|
  {
    if ss == [] then Some(o)
    else match Big(m, ss[0], o, fuel)
      case None => None
      case Some(o1) => BigSeq(m, ss[1..], o1, fuel)
  }

  /** n more rounds of a repeat statement. */
  function BigTimes<S>(m: Meaning<S>, n: nat, b: Stmt, o: Out<S>, fuel: nat): Option<Out<S>>
    decreases fuel, 1, n
  {
    if n == 0 then Some(o)
    else match Big(m, b, Tick(o), fuel)
      case None => None
      case Some(o1) => BigTimes(m, n - 1, b, o1, fuel)
  }

  function BigLoop<S>(m: Meaning<S>, c: Option<nat>, body: seq<Stmt>, o: Out<S>, fuel: nat): Option<Out<S>>
    decreases fuel, 2, 0
  {
    if c.Some? && m.value(c.value, o.store) == 0 then Some(Tick(o))
    else if fuel == 0 then None
    else match BigSeq(m, body, Tick(o), fuel - 1)
      case None => None
      case Some(o1) => BigLoop(m, c, body, o1, fuel - 1)
  }

  // ---- more fuel changes no result ----

  lemma {:induction false} BigMono<S>(m: Meaning<S>, s: Stmt, o: Out<S>, f: nat, g: nat)
    requires f <= g && Big(m, s, o, f).Some?
    ensures Big(m, s, o, g) == Big(m, s, o, f)
    decreases f, 0, 0
  {
    match s
    case Begin(_, ss) => SeqMono(m, ss, Tick(o), f - 1, g - 1);
    case If(_, c, p, q) => SeqMono(m, PartList(if m.value(c, o.store) != 0 then p else q), Tick(o), f - 1, g - 1);
    case Case(_, c, items) => SeqMono(m, Chosen(m, c, items, o.store), Tick(o), f - 1, g - 1);
    case Repeat(_, c, b) =>
      if m.value(c, o.store) > 0 {
        TimesMono(m, m.value(c, o.store), b, o, f - 1, g - 1);
      }
    case Forever(_, b) => LoopMono(m, None, [b], o, f - 1, g - 1);
    case While(_, c, p) => LoopMono(m, Some(c), PartList(p), o, f - 1, g - 1);
    case For(_, i, c, n, p) =>
      SeqMono(m, PartList(i), o, f - 1, g - 1);
      LoopMono(m, Some(c), PartList(p) + PartList(n), BigSeq(m, PartList(i), o, f - 1).value, f - 1, g - 1);
    case _ =>
  }

  lemma {:induction false} SeqMono<S>(m: Meaning<S>, ss: seq<Stmt>, o: Out<S>, f: nat, g: nat)
    requires f <= g && BigSeq(m, ss, o, f).Some?
    ensures BigSeq(m, ss, o, g) == BigSeq(m, ss, o, f)
    decreases f, 1, |ss|
  {
    if ss != [] {
      BigMono(m, ss[0], o, f, g);
      SeqMono(m, ss[1..], Big(m, ss[0], o, f).value, f, g);
    }
  }

  lemma {:induction false} TimesMono<S>(m: Meaning<S>, n: nat, b: Stmt, o: Out<S>, f: nat, g: nat)
    requires f <= g && BigTimes(m, n, b, o, f).Some?
    ensures BigTimes(m, n, b, o, g) == BigTimes(m, n, b, o, f)
    decreases f, 1, n
  {
    if n > 0 {
      BigMono(m, b, Tick(o), f, g);
      TimesMono(m, n - 1, b, Big(m, b, Tick(o), f).value, f, g);
    }
  }

  lemma {:induction false} LoopMono<S>(m: Meaning<S>, c: Option<nat>, body: seq<Stmt>, o: Out<S>, f: nat, g: nat)
    requires f <= g && BigLoop(m, c, body, o, f).Some?
    ensures BigLoop(m, c, body, o, g) == BigLoop(m, c, body, o, f)
    decreases f, 2, 0
  {
    if !(c.Some? && m.value(c.value, o.store) == 0) {
      SeqMono(m, body, Tick(o), f - 1, g - 1);
      LoopMono(m, c, body, BigSeq(m, body, Tick(o), f - 1).value, f - 1, g - 1);
    }
  }

  // ---- evaluations only add up ----

  lemma {:induction false} BigCosts<S>(m: Meaning<S>, s: Stmt, o: Out<S>, f: nat)
    requires Big(m, s, o, f).Some?
    ensures o.evals < Big(m, s, o, f).value.evals
    decreases f, 0, 0
  {
    match s
    case Begin(_, ss) => SeqCosts(m, ss, Tick(o), f - 1);
    case If(_, c, p, q) => SeqCosts(m, PartList(if m.value(c, o.store) != 0 then p else q), Tick(o), f - 1);
    case Case(_, c, items) => SeqCosts(m, Chosen(m, c, items, o.store), Tick(o), f - 1);
    case Repeat(_, c, b) =>
      if m.value(c, o.store) > 0 {
        TimesCosts(m, m.value(c, o.store), b, o, f - 1);
      }
    case Forever(_, b) => LoopCosts(m, None, [b], o, f - 1);
    case While(_, c, p) => LoopCosts(m, Some(c), PartList(p), o, f - 1);
    case For(_, i, c, n, p) =>
      SeqCosts(m, PartList(i), o, f - 1);
      LoopCosts(m, Some(c), PartList(p) + PartList(n), BigSeq(m, PartList(i), o, f - 1).value, f - 1);
    case _ =>
  }

  lemma {:induction false} SeqCosts<S>(m: Meaning<S>, ss: seq<Stmt>, o: Out<S>, f: nat)
    requires BigSeq(m, ss, o, f).Some?
    ensures o.evals <= BigSeq(m, ss, o, f).value.evals
    decreases f, 1, |ss|
  {
    if ss != [] {
      BigCosts(m, ss[0], o, f);
      SeqCosts(m, ss[1..], Big(m, ss[0], o, f).value, f);
    }
  }

  lemma {:induction false} TimesCosts<S>(m: Meaning<S>, n: nat, b: Stmt, o: Out<S>, f: nat)
    requires BigTimes(m, n, b, o, f).Some?
    ensures o.evals + (if n > 0 then 1 else 0) <= BigTimes(m, n, b, o, f).value.evals
    decreases f, 1, n
  {
    if n > 0 {
      BigCosts(m, b, Tick(o), f);
      TimesCosts(m, n - 1, b, Big(m, b, Tick(o), f).value, f);
    }
  }

  lemma {:induction false} LoopCosts<S>(m: Meaning<S>, c: Option<nat>, body: seq<Stmt>, o: Out<S>, f: nat)
    requires BigLoop(m, c, body, o, f).Some?
    ensures o.evals < BigLoop(m, c, body, o, f).value.evals
    decreases f, 2, 0
  {
    if !(c.Some? && m.value(c.value, o.store) == 0) {
      SeqCosts(m, body, Tick(o), f - 1);
      LoopCosts(m, c, body, BigSeq(m, body, Tick(o), f - 1).value, f - 1);
    }
  }

  // ---- well-formed designs ----

  /** The repeat statements inside a statement: their counters are what it may change. */
  function Repeats(s: Stmt): set<nat>
    decreases s
  {
    match s
    case Begin(_, ss) => RepeatsIn(ss)
    case If(_, _, p, q) =>
      (if p.Some? then Repeats(p.value) else {}) + (if q.Some? then Repeats(q.value) else {})
    case Case(_, _, items) => RepeatsInItems(items)
    case Forever(_, b) => Repeats(b)
    case Repeat(id, _, b) => Repeats(b) + {id}
    case While(_, _, p) => if p.Some? then Repeats(p.value) else {}
    case For(_, _, _, _, p) => if p.Some? then Repeats(p.value) else {}
    case _ => {}
  }

  function RepeatsIn(ss: seq<Stmt>): set<nat>
    decreases ss
  {
    if ss == [] then {} else Repeats(ss[0]) + RepeatsIn(ss[1..])
  }

  function RepeatsInItems(items: seq<CaseItem>): set<nat>
    decreases items
  {
    if items == [] then {}
    else (if items[0].part.Some? then Repeats(items[0].part.value) else {}) + RepeatsInItems(items[1..])
  }

  /** The statements that setting up ss queues. */
  function Queued(ss: seq<Stmt>): seq<Stmt> {
    if ss == [] then []
    else (if ss[0].For? then PartList(ss[0].init) else []) + [ss[0]] + Queued(ss[1..])
  }

  lemma {:induction false} SetUpQueues(ss: seq<Stmt>, ctx: set<nat>)
    ensures |SetUpAll(ss, ctx)| == |Queued(ss)|
    ensures forall i :: 0 <= i < |Queued(ss)| ==> SetUpAll(ss, ctx)[i].stmt == Queued(ss)[i]
  {
    if ss != [] {
      SetUpQueues(ss[1..], ctx);
    }
  }

  /** Statements that may be set up together: what they queue are different objects, and no
      repeat statement occurs in two of them. */
  predicate Together(ss: seq<Stmt>) {
    && (forall i, j :: 0 <= i < j < |ss| ==> Repeats(ss[i]) !! Repeats(ss[j]))
    && (forall i, j :: 0 <= i < j < |Queued(ss)| ==> Queued(ss)[i] != Queued(ss)[j])
  }

  /** A tree of distinct statement objects of the structured kinds, with plain statements as the
      initial and the end assignment of a for loop. */
  predicate Proper(s: Stmt)
    decreases s
  {
    match s
    case Prim(_) => true
    case Begin(_, ss) => Together(ss) && forall i :: 0 <= i < |ss| ==> Proper(ss[i])
    case If(_, _, p, q) => (p.Some? ==> Proper(p.value)) && (q.Some? ==> Proper(q.value))
    case Case(_, _, items) =>
      Together(Defaults(items)) && forall i :: 0 <= i < |items| && items[i].part.Some? ==> Proper(items[i].part.value)
    case Forever(_, b) => Proper(b)
    case Repeat(id, _, b) => Proper(b) && id !in Repeats(b)
    case While(_, _, p) => p.Some? ==> Proper(p.value)
    case For(_, i, _, n, p) =>
      && (i.Some? ==> i.value.Prim?) && (n.Some? ==> n.value.Prim?) && (p.Some? ==> Proper(p.value))
      && Together(PartList(p) + PartList(n))
    case _ => false
  }

  // ---- what a queue still has to do ----

  /** The meaning of a queued statement: a repeat statement may be part way through its rounds,
      and a for loop has its initial assignment behind it. */
  function Residual<S>(m: Meaning<S>, s: Stmt, counts: map<nat, int>, o: Out<S>, fuel: nat): Option<Out<S>> {
    match s
    case Repeat(id, _, b) =>
      if CountOf(counts, id) >= 0 then BigTimes(m, CountOf(counts, id), b, o, fuel) else Big(m, s, o, fuel)
    case For(_, _, c, n, p) => BigLoop(m, Some(c), PartList(p) + PartList(n), o, fuel)
    case _ => Big(m, s, o, fuel)
  }

  function Pending<S>(m: Meaning<S>, ts: seq<Task>, counts: map<nat, int>, o: Out<S>, fuel: nat): Option<Out<S>>
    decreases ts
  {
    if ts == [] then Some(o)
    else match Residual(m, ts[0].stmt, counts, o, fuel)
      case None => None
      case Some(o1) => Pending(m, ts[1..], counts, o1, fuel)
  }

  lemma {:induction false} PendingConcat<S>(m: Meaning<S>, p: seq<Task>, q: seq<Task>, counts: map<nat, int>, o: Out<S>, fuel: nat)
    ensures Pending(m, p + q, counts, o, fuel) ==
            match Pending(m, p, counts, o, fuel) case None => None case Some(x) => Pending(m, q, counts, x, fuel)
    decreases p
  {
    if p == [] {
      assert p + q == q;
    } else {
      assert (p + q)[0] == p[0] && (p + q)[1..] == p[1..] + q;
      var x := Residual(m, p[0].stmt, counts, o, fuel);
      if x.Some? {
        PendingConcat(m, p[1..], q, counts, x.value, fuel);
      }
    }
  }

  lemma {:induction false} PendingMono<S>(m: Meaning<S>, ts: seq<Task>, counts: map<nat, int>, o: Out<S>, f: nat, g: nat)
    requires f <= g && Pending(m, ts, counts, o, f).Some?
    ensures Pending(m, ts, counts, o, g) == Pending(m, ts, counts, o, f)
    decreases ts
  {
    if ts != [] {
      ResidualMono(m, ts[0].stmt, counts, o, f, g);
      PendingMono(m, ts[1..], counts, Residual(m, ts[0].stmt, counts, o, f).value, f, g);
    }
  }

  lemma ResidualMono<S>(m: Meaning<S>, s: Stmt, counts: map<nat, int>, o: Out<S>, f: nat, g: nat)
    requires f <= g && Residual(m, s, counts, o, f).Some?
    ensures Residual(m, s, counts, o, g) == Residual(m, s, counts, o, f)
  {
    match s
    case Repeat(id, _, b) =>
      if CountOf(counts, id) >= 0 {
        TimesMono(m, CountOf(counts, id), b, o, f, g);
      } else {
        BigMono(m, s, o, f, g);
      }
    case For(_, _, c, n, p) => LoopMono(m, Some(c), PartList(p) + PartList(n), o, f, g);
    case _ => BigMono(m, s, o, f, g);
  }

  predicate SameCounts(ts: seq<Task>, c: map<nat, int>, d: map<nat, int>) {
    forall i :: 0 <= i < |ts| && ts[i].stmt.Repeat? ==> CountOf(c, ts[i].stmt.id) == CountOf(d, ts[i].stmt.id)
  }

  lemma {:induction false} PendingSame<S>(m: Meaning<S>, ts: seq<Task>, c: map<nat, int>, d: map<nat, int>, o: Out<S>, fuel: nat)
    requires SameCounts(ts, c, d)
    ensures Pending(m, ts, c, o, fuel) == Pending(m, ts, d, o, fuel)
    decreases ts
  {
    if ts != [] {
      var x := Residual(m, ts[0].stmt, c, o, fuel);
      assert x == Residual(m, ts[0].stmt, d, o, fuel);
      if x.Some? {
        PendingSame(m, ts[1..], c, d, x.value, fuel);
      }
    }
  }

  // ---- setting up is running in order ----

  predicate AllFresh(ss: seq<Stmt>, counts: map<nat, int>) {
    forall i :: 0 <= i < |ss| && ss[i].Repeat? ==> CountOf(counts, ss[i].id) < 0
  }

  predicate AllProper(ss: seq<Stmt>) {
    forall i :: 0 <= i < |ss| ==> Proper(ss[i])
  }

  lemma {:induction false} SetUpMeans<S>(m: Meaning<S>, ss: seq<Stmt>, ctx: set<nat>, counts: map<nat, int>, o: Out<S>, fuel: nat)
    requires AllFresh(ss, counts) && AllProper(ss)
    ensures BigSeq(m, ss, o, fuel).Some? ==>
              Pending(m, SetUpAll(ss, ctx), counts, o, fuel) == BigSeq(m, ss, o, fuel)
    ensures Pending(m, SetUpAll(ss, ctx), counts, o, fuel).Some? ==>
              BigSeq(m, ss, o, fuel + 1) == Pending(m, SetUpAll(ss, ctx), counts, o, fuel)
    decreases ss
  {
    if ss != [] {
      var s := ss[0];
      OneSetUp(m, s, ctx, counts, o, fuel);
      PendingConcat(m, SetUp(s, ctx), SetUpAll(ss[1..], ctx), counts, o, fuel);
      var x := Pending(m, SetUp(s, ctx), counts, o, fuel);
      if x.Some? {
        SetUpMeans(m, ss[1..], ctx, counts, x.value, fuel);
      }
    }
  }

  lemma OneSetUp<S>(m: Meaning<S>, s: Stmt, ctx: set<nat>, counts: map<nat, int>, o: Out<S>, fuel: nat)
    requires Proper(s) && (s.Repeat? ==> CountOf(counts, s.id) < 0)
    ensures Big(m, s, o, fuel).Some? ==> Pending(m, SetUp(s, ctx), counts, o, fuel) == Big(m, s, o, fuel)
    ensures Pending(m, SetUp(s, ctx), counts, o, fuel).Some? ==>
              Big(m, s, o, fuel + 1) == Pending(m, SetUp(s, ctx), counts, o, fuel)
  {
    var q := SetUp(s, ctx);
    if s.For? {
      OneForSetUp(m, s, ctx, counts, o, fuel);
    } else {
      assert q[1..] == [];
      assert Pending(m, q, counts, o, fuel) == Residual(m, s, counts, o, fuel);
      if Big(m, s, o, fuel).Some? {
        BigMono(m, s, o, fuel, fuel + 1);
      }
    }
  }

  lemma OneForSetUp<S>(m: Meaning<S>, s: Stmt, ctx: set<nat>, counts: map<nat, int>, o: Out<S>, fuel: nat)
    requires Proper(s) && s.For?
    ensures Big(m, s, o, fuel).Some? ==> Pending(m, SetUp(s, ctx), counts, o, fuel) == Big(m, s, o, fuel)
    ensures Pending(m, SetUp(s, ctx), counts, o, fuel).Some? ==>
              Big(m, s, o, fuel + 1) == Pending(m, SetUp(s, ctx), counts, o, fuel)
  {
    var first := if s.init.Some? then [Task(s.init.value, ctx)] else [];
    var body := PartList(s.part) + PartList(s.step);
    assert SetUp(s, ctx) == first + [Task(s, ctx)];
    PendingConcat(m, first, [Task(s, ctx)], counts, o, fuel);
    assert [Task(s, ctx)][1..] == [];
    if s.init.Some? {
      assert first[1..] == [] && PartList(s.init)[1..] == [];
    }
    if fuel > 0 {
      assert Pending(m, first, counts, o, fuel) == BigSeq(m, PartList(s.init), o, fuel);
      if BigSeq(m, PartList(s.init), o, fuel - 1).Some? {
        SeqMono(m, PartList(s.init), o, fuel - 1, fuel);
        var x := BigSeq(m, PartList(s.init), o, fuel).value;
        if BigLoop(m, Some(s.cond), body, x, fuel - 1).Some? {
          LoopMono(m, Some(s.cond), body, x, fuel - 1, fuel);
        }
      }
    }
  }

  // ---- the invariant of the queue ----

  /** Queued statements are proper, a repeat statement in the queue has rounds left or has not
      begun, and nothing queued before it touches its counter. */
  predicate Config(ts: seq<Task>, counts: map<nat, int>) {
    && (forall i :: 0 <= i < |ts| ==> Proper(ts[i].stmt))
    && (forall i :: 0 <= i < |ts| && ts[i].stmt.Repeat? ==> CountOf(counts, ts[i].stmt.id) != 0)
    && (forall i, j :: 0 <= i < j < |ts| && ts[j].stmt.Repeat? ==> ts[j].stmt.id !in Repeats(ts[i].stmt))
  }

  lemma {:induction false} DefaultsProper(items: seq<CaseItem>)
    requires forall i :: 0 <= i < |items| && items[i].part.Some? ==> Proper(items[i].part.value)
    ensures AllProper(Defaults(items))
    ensures forall i :: 0 <= i < |Defaults(items)| ==> Repeats(Defaults(items)[i]) <= RepeatsInItems(items)
  {
    if items != [] {
      DefaultsProper(items[1..]);
    }
  }

  lemma {:induction false} FirstMatchProper<S>(m: Meaning<S>, subject: nat, items: seq<CaseItem>, store: S)
    requires forall i :: 0 <= i < |items| && items[i].part.Some? ==> Proper(items[i].part.value)
    ensures AllProper(FirstMatch(m, subject, items, store)) && |FirstMatch(m, subject, items, store)| <= 1
    ensures forall i :: 0 <= i < |FirstMatch(m, subject, items, store)| ==>
              Repeats(FirstMatch(m, subject, items, store)[i]) <= RepeatsInItems(items)
  {
    if items != [] {
      FirstMatchProper(m, subject, items[1..], store);
    }
  }

  lemma {:induction false} RepeatsOfEach(ss: seq<Stmt>)
    ensures forall i :: 0 <= i < |ss| ==> Repeats(ss[i]) <= RepeatsIn(ss)
  {
    if ss != [] {
      RepeatsOfEach(ss[1..]);
    }
  }

  lemma SingleTogether(ss: seq<Stmt>)
    requires |ss| <= 1 && AllProper(ss)
    ensures Together(ss)
  {
    if ss != [] {
      assert Queued(ss[1..]) == [];
      assert Queued(ss) == (if ss[0].For? then PartList(ss[0].init) else []) + [ss[0]];
    }
  }

  /** The parts of a proper statement are proper and may be set up together. */
  lemma PartsProper<S>(m: Meaning<S>, s: Stmt, w: World<S>)
    requires Proper(s)
    ensures AllProper(Parts(m, s, w).0) && Together(Parts(m, s, w).0)
  {
    match s
    case Begin(_, _) =>
    case For(_, _, _, _, _) => SingleTogether([]);
    case Case(_, c, items) =>
      DefaultsProper(items);
      FirstMatchProper(m, c, items, w.out.store);
      if Parts(m, s, w).0 != Defaults(items) {
        SingleTogether(Parts(m, s, w).0);
      }
    case _ => SingleTogether(Parts(m, s, w).0);
  }

  /** The repeat statements of a part are repeat statements of the whole. */
  lemma PartsInside<S>(m: Meaning<S>, s: Stmt, w: World<S>)
    requires Proper(s)
    ensures forall i :: 0 <= i < |Parts(m, s, w).0| ==> Repeats(Parts(m, s, w).0[i]) <= Repeats(s)
    ensures s.Repeat? ==> forall i :: 0 <= i < |Parts(m, s, w).0| ==> s.id !in Repeats(Parts(m, s, w).0[i])
  {
    match s
    case Begin(_, ss) => RepeatsOfEach(ss);
    case Case(_, c, items) =>
      DefaultsProper(items);
      FirstMatchProper(m, c, items, w.out.store);
    case _ =>
  }

  // ---- counters ----

  lemma {:induction false} ResetCounts(ss: seq<Stmt>, counts: map<nat, int>, id: nat)
    ensures CountOf(Reset(ss, counts), id) ==
            if exists i :: 0 <= i < |ss| && ss[i].Repeat? && ss[i].id == id then -1 else CountOf(counts, id)
    decreases ss
  {
    if ss != [] {
      var c := if ss[0].Repeat? then counts[ss[0].id := -1] else counts;
      ResetCounts(ss[1..], c, id);
      if exists i :: 0 <= i < |ss| && ss[i].Repeat? && ss[i].id == id {
        var i :| 0 <= i < |ss| && ss[i].Repeat? && ss[i].id == id;
        if i > 0 {
          assert ss[1..][i - 1].Repeat? && ss[1..][i - 1].id == id;
        }
      }
      if exists i :: 0 <= i < |ss[1..]| && ss[1..][i].Repeat? && ss[1..][i].id == id {
        var i :| 0 <= i < |ss[1..]| && ss[1..][i].Repeat? && ss[1..][i].id == id;
        assert ss[i + 1].Repeat? && ss[i + 1].id == id;
      }
    }
  }

  /** An evaluation changes only counters of repeat statements inside the evaluated one. */
  lemma CountsOutside<S>(m: Meaning<S>, t: Task, w: World<S>, id: nat)
    requires Proper(t.stmt) && id !in Repeats(t.stmt)
    ensures CountOf(NextWorld(m, t, w).counts, id) == CountOf(w.counts, id)
  {
    PartsInside(m, t.stmt, w);
    var parts := Parts(m, t.stmt, w).0;
    ResetCounts(parts, Counted(m, t.stmt, w), id);
    forall i | 0 <= i < |parts| && parts[i].Repeat? ensures parts[i].id != id {
      assert parts[i].id in Repeats(parts[i]);
    }
  }

  lemma PartsFresh<S>(m: Meaning<S>, t: Task, w: World<S>)
    ensures AllFresh(Parts(m, t.stmt, w).0, NextWorld(m, t, w).counts)
  {
    var parts := Parts(m, t.stmt, w).0;
    forall i | 0 <= i < |parts| && parts[i].Repeat?
      ensures CountOf(NextWorld(m, t, w).counts, parts[i].id) < 0
    {
      ResetCounts(parts, Counted(m, t.stmt, w), parts[i].id);
    }
  }

  /** A repeat statement that queues itself again has its remaining rounds in its counter. */
  lemma OwnCount<S>(m: Meaning<S>, t: Task, w: World<S>)
    requires Proper(t.stmt) && t.stmt.Repeat?
    ensures CountOf(NextWorld(m, t, w).counts, t.stmt.id) == CountOf(Counted(m, t.stmt, w), t.stmt.id)
  {
    var parts := Parts(m, t.stmt, w).0;
    PartsInside(m, t.stmt, w);
    ResetCounts(parts, Counted(m, t.stmt, w), t.stmt.id);
    forall i | 0 <= i < |parts| && parts[i].Repeat? ensures parts[i].id != t.stmt.id {
      assert parts[i].id in Repeats(parts[i]);
    }
  }

  // ---- one evaluation does its part of the structured run, and no more ----

  lemma RestSame<S>(m: Meaning<S>, t: Task, rest: seq<Task>, w: World<S>)
    requires Config([t] + rest, w.counts)
    ensures SameCounts(rest, w.counts, NextWorld(m, t, w).counts)
  {
    var ts := [t] + rest;
    assert Proper(ts[0].stmt);
    forall i | 0 <= i < |rest| && rest[i].stmt.Repeat?
      ensures CountOf(w.counts, rest[i].stmt.id) == CountOf(NextWorld(m, t, w).counts, rest[i].stmt.id)
    {
      assert ts[i + 1] == rest[i];
      CountsOutside(m, t, w, rest[i].stmt.id);
    }
  }

  /** After the parts, in world x, what is left of t. */
  function After<S>(m: Meaning<S>, t: Task, w: World<S>, o: Out<S>, fuel: nat): Option<Out<S>> {
    if Parts(m, t.stmt, w).1 then Residual(m, t.stmt, NextWorld(m, t, w).counts, o, fuel) else Some(o)
  }

  lemma NowMeans<S>(m: Meaning<S>, t: Task, w: World<S>, fuel: nat)
    requires Proper(t.stmt)
    ensures var w' := NextWorld(m, t, w);
            Pending(m, NowTasks(m, t, w), w'.counts, w'.out, fuel) ==
            match Pending(m, SetUpAll(Parts(m, t.stmt, w).0, t.ctx), w'.counts, w'.out, fuel)
            case None => None
            case Some(x) => After(m, t, w, x, fuel)
  {
    var (parts, again) := Parts(m, t.stmt, w);
    var w' := NextWorld(m, t, w);
    var tail := if again then [t] else [];
    PendingConcat(m, SetUpAll(parts, t.ctx), tail, w'.counts, w'.out, fuel);
    var x := Pending(m, SetUpAll(parts, t.ctx), w'.counts, w'.out, fuel);
    if again && x.Some? {
      assert tail[1..] == [];
    }
  }

  lemma HeadForward<S>(m: Meaning<S>, t: Task, w: World<S>, fuel: nat)
    requires Proper(t.stmt) && (t.stmt.Repeat? ==> CountOf(w.counts, t.stmt.id) != 0)
    requires Residual(m, t.stmt, w.counts, w.out, fuel).Some?
    ensures var w' := NextWorld(m, t, w);
            Pending(m, NowTasks(m, t, w), w'.counts, w'.out, fuel) == Residual(m, t.stmt, w.counts, w.out, fuel)
  {
    var w', o, parts := NextWorld(m, t, w), Tick(w.out), Parts(m, t.stmt, w).0;
    NowMeans(m, t, w, fuel);
    PartsProper(m, t.stmt, w);
    PartsFresh(m, t, w);
    SetUpMeans(m, parts, t.ctx, w'.counts, w'.out, fuel);
    match t.stmt
    case Prim(_) =>
    case Begin(_, ss) => SeqMono(m, parts, o, fuel - 1, fuel);
    case If(_, _, _, _) => SeqMono(m, parts, o, fuel - 1, fuel);
    case Case(_, _, _) => SeqMono(m, parts, o, fuel - 1, fuel);
    case Repeat(id, c, b) =>
      OwnCount(m, t, w);
      RepeatForward(m, t, w, fuel);
    case Forever(_, b) => LoopForward(m, None, [b], w.out, fuel - 1, fuel);
    case While(_, c, p) =>
      if m.value(c, w.out.store) != 0 {
        LoopForward(m, Some(c), PartList(p), w.out, fuel - 1, fuel);
        var x := BigSeq(m, PartList(p), o, fuel).value;
        assert Big(m, t.stmt, x, fuel) == BigLoop(m, Some(c), PartList(p), x, fuel - 1);
      } else {
        assert Big(m, t.stmt, w.out, fuel) == Some(o);
      }
    case For(_, _, c, n, p) =>
      if m.value(c, w.out.store) != 0 {
        LoopForward(m, Some(c), PartList(p) + PartList(n), w.out, fuel, fuel);
      }
  }

  /** The first round of a loop, with the fuel that its parts and the rest of it have. */
  lemma LoopForward<S>(m: Meaning<S>, c: Option<nat>, body: seq<Stmt>, o: Out<S>, f: nat, g: nat)
    requires f <= g && BigLoop(m, c, body, o, f).Some?
    requires c.None? || m.value(c.value, o.store) != 0
    ensures f > 0 && BigSeq(m, body, Tick(o), g).Some?
    ensures BigLoop(m, c, body, BigSeq(m, body, Tick(o), g).value, f) == BigLoop(m, c, body, o, f)
  {
    SeqMono(m, body, Tick(o), f - 1, g);
    LoopMono(m, c, body, BigSeq(m, body, Tick(o), f - 1).value, f - 1, f);
  }

  lemma RepeatForward<S>(m: Meaning<S>, t: Task, w: World<S>, fuel: nat)
    requires t.stmt.Repeat? && CountOf(w.counts, t.stmt.id) != 0
    requires Residual(m, t.stmt, w.counts, w.out, fuel).Some?
    ensures var n := if CountOf(w.counts, t.stmt.id) < 0 then m.value(t.stmt.count, w.out.store) else CountOf(w.counts, t.stmt.id);
            if n <= 0 then Residual(m, t.stmt, w.counts, w.out, fuel) == Some(Tick(w.out))
            else
              && Big(m, t.stmt.body, Tick(w.out), fuel).Some?
              && BigSeq(m, [t.stmt.body], Tick(w.out), fuel) == Big(m, t.stmt.body, Tick(w.out), fuel)
              && BigTimes(m, n - 1, t.stmt.body, Big(m, t.stmt.body, Tick(w.out), fuel).value, fuel)
                 == Residual(m, t.stmt, w.counts, w.out, fuel)
  {
    var n := if CountOf(w.counts, t.stmt.id) < 0 then m.value(t.stmt.count, w.out.store) else CountOf(w.counts, t.stmt.id);
    if n > 0 {
      if CountOf(w.counts, t.stmt.id) < 0 {
        TimesMono(m, n, t.stmt.body, w.out, fuel - 1, fuel);
      }
      assert [t.stmt.body][1..] == [];
    }
  }

  lemma LoopBackward<S>(m: Meaning<S>, c: Option<nat>, body: seq<Stmt>, o: Out<S>, e: nat, f: nat, g: nat)
    requires e <= f < g && BigSeq(m, body, Tick(o), f).Some?
    requires c.None? || m.value(c.value, o.store) != 0
    requires BigLoop(m, c, body, BigSeq(m, body, Tick(o), f).value, e).Some?
    ensures BigLoop(m, c, body, o, g) == BigLoop(m, c, body, BigSeq(m, body, Tick(o), f).value, e)
  {
    SeqMono(m, body, Tick(o), f, g - 1);
    LoopMono(m, c, body, BigSeq(m, body, Tick(o), f).value, e, g - 1);
  }

  lemma TimesBackward<S>(m: Meaning<S>, n: nat, b: Stmt, o: Out<S>, f: nat, g: nat)
    requires 0 < n && f < g && Big(m, b, Tick(o), f + 1).Some?
    requires BigTimes(m, n - 1, b, Big(m, b, Tick(o), f + 1).value, f).Some?
    ensures BigTimes(m, n, b, o, g) == BigTimes(m, n - 1, b, Big(m, b, Tick(o), f + 1).value, f)
  {
    BigMono(m, b, Tick(o), f + 1, g);
    TimesMono(m, n - 1, b, Big(m, b, Tick(o), f + 1).value, f, g);
  }

  lemma HeadBackward<S>(m: Meaning<S>, t: Task, w: World<S>, fuel: nat)
    requires Proper(t.stmt) && (t.stmt.Repeat? ==> CountOf(w.counts, t.stmt.id) != 0)
    requires var w' := NextWorld(m, t, w); Pending(m, NowTasks(m, t, w), w'.counts, w'.out, fuel).Some?
    ensures var w' := NextWorld(m, t, w);
            Residual(m, t.stmt, w.counts, w.out, fuel + 3) == Pending(m, NowTasks(m, t, w), w'.counts, w'.out, fuel)
  {
    var w', parts := NextWorld(m, t, w), Parts(m, t.stmt, w).0;
    NowMeans(m, t, w, fuel);
    PartsProper(m, t.stmt, w);
    PartsFresh(m, t, w);
    SetUpMeans(m, parts, t.ctx, w'.counts, w'.out, fuel);
    if !t.stmt.Prim? {
      PartsBackward(m, t, w, fuel);
    }
  }

  /** The parts have run, and so has what is left of t: then t has run. */
  lemma PartsBackward<S>(m: Meaning<S>, t: Task, w: World<S>, fuel: nat)
    requires Proper(t.stmt) && !t.stmt.Prim? && (t.stmt.Repeat? ==> CountOf(w.counts, t.stmt.id) != 0)
    requires BigSeq(m, Parts(m, t.stmt, w).0, Tick(w.out), fuel + 1).Some?
    requires After(m, t, w, BigSeq(m, Parts(m, t.stmt, w).0, Tick(w.out), fuel + 1).value, fuel).Some?
    ensures Residual(m, t.stmt, w.counts, w.out, fuel + 3)
         == After(m, t, w, BigSeq(m, Parts(m, t.stmt, w).0, Tick(w.out), fuel + 1).value, fuel)
  {
    var o, parts := Tick(w.out), Parts(m, t.stmt, w).0;
    match t.stmt
    case Begin(_, ss) => SeqMono(m, parts, o, fuel + 1, fuel + 2);
    case If(_, _, _, _) => SeqMono(m, parts, o, fuel + 1, fuel + 2);
    case Case(_, _, _) => SeqMono(m, parts, o, fuel + 1, fuel + 2);
    case Repeat(id, c, b) =>
      OwnCount(m, t, w);
      var n := if CountOf(w.counts, id) < 0 then m.value(c, w.out.store) else CountOf(w.counts, id);
      if n > 0 {
        assert [b][1..] == [] && BigSeq(m, [b], o, fuel + 1) == Big(m, b, o, fuel + 1);
        TimesBackward(m, n, b, w.out, fuel, fuel + 2);
        TimesBackward(m, n, b, w.out, fuel, fuel + 3);
      }
    case Forever(_, b) => LoopBackward(m, None, [b], w.out, fuel - 1, fuel + 1, fuel + 2);
    case While(_, c, p) =>
      if m.value(c, w.out.store) != 0 {
        LoopBackward(m, Some(c), PartList(p), w.out, fuel - 1, fuel + 1, fuel + 2);
        assert Big(m, t.stmt, w.out, fuel + 3) == BigLoop(m, Some(c), PartList(p), w.out, fuel + 2);
      } else {
        assert Big(m, t.stmt, w.out, fuel + 3) == Some(o);
      }
    case For(_, _, c, n, p) =>
      if m.value(c, w.out.store) != 0 {
        LoopBackward(m, Some(c), PartList(p) + PartList(n), w.out, fuel, fuel + 1, fuel + 3);
      }
  }

  // ---- the invariant is kept ----

  /** What setting up ss queues: members of ss, and initial assignments of their for loops. */
  lemma {:induction false} QueuedAre(ss: seq<Stmt>)
    requires AllProper(ss)
    ensures AllProper(Queued(ss))
    ensures forall i :: 0 <= i < |Queued(ss)| ==> Queued(ss)[i] in ss || Queued(ss)[i].Prim?
    decreases ss
  {
    if ss != [] {
      QueuedAre(ss[1..]);
    }
  }

  predicate NoClash(ss: seq<Stmt>) {
    forall i, j :: 0 <= i < j < |ss| && ss[j].Repeat? ==> ss[j].id !in Repeats(ss[i])
  }

  lemma {:induction false} QueuedNoClash(ss: seq<Stmt>)
    requires AllProper(ss)
    requires forall i, j :: 0 <= i < j < |ss| ==> Repeats(ss[i]) !! Repeats(ss[j])
    ensures NoClash(Queued(ss))
    decreases ss
  {
    if ss != [] {
      var first := if ss[0].For? then PartList(ss[0].init) else [];
      var q := Queued(ss[1..]);
      QueuedNoClash(ss[1..]);
      QueuedAre(ss[1..]);
      forall j | 0 <= j < |q| && q[j].Repeat? ensures q[j].id !in Repeats(ss[0]) {
        var k :| 0 <= k < |ss[1..]| && ss[1..][k] == q[j];
        assert Repeats(ss[0]) !! Repeats(ss[k + 1]);
        assert q[j].id in Repeats(ss[k + 1]);
      }
      assert Queued(ss) == first + [ss[0]] + q;
      forall i, j | 0 <= i < j < |Queued(ss)| && Queued(ss)[j].Repeat?
        ensures Queued(ss)[j].id !in Repeats(Queued(ss)[i])
      {
        if j > |first| {
          assert Queued(ss)[j] == q[j - |first| - 1];
          if i > |first| {
            assert Queued(ss)[i] == q[i - |first| - 1];
          }
        }
      }
    }
  }

  /** The tasks that one evaluation queues are the queued parts, and perhaps the statement. */
  lemma NowIs<S>(m: Meaning<S>, t: Task, w: World<S>)
    ensures var (parts, again) := Parts(m, t.stmt, w);
            var now, q := NowTasks(m, t, w), Queued(parts);
            && |now| == |q| + (if again then 1 else 0)
            && (forall i :: 0 <= i < |q| ==> now[i].stmt == q[i])
            && (again ==> now[|q|] == t)
  {
    SetUpQueues(Parts(m, t.stmt, w).0, t.ctx);
  }

  lemma NowProper<S>(m: Meaning<S>, t: Task, w: World<S>)
    requires Proper(t.stmt)
    ensures forall i :: 0 <= i < |NowTasks(m, t, w)| ==>
              Proper(NowTasks(m, t, w)[i].stmt) && Repeats(NowTasks(m, t, w)[i].stmt) <= Repeats(t.stmt)
  {
    var parts := Parts(m, t.stmt, w).0;
    NowIs(m, t, w);
    PartsProper(m, t.stmt, w);
    PartsInside(m, t.stmt, w);
    QueuedAre(parts);
    forall i | 0 <= i < |Queued(parts)| ensures Repeats(Queued(parts)[i]) <= Repeats(t.stmt) {
      assert Queued(parts)[i] in parts || Queued(parts)[i].Prim?;
    }
  }

  lemma NowCounts<S>(m: Meaning<S>, t: Task, w: World<S>)
    requires Proper(t.stmt)
    ensures var now := NowTasks(m, t, w);
            forall i :: 0 <= i < |now| && now[i].stmt.Repeat? ==>
              CountOf(NextWorld(m, t, w).counts, now[i].stmt.id) != 0
  {
    var parts := Parts(m, t.stmt, w).0;
    NowIs(m, t, w);
    PartsProper(m, t.stmt, w);
    PartsFresh(m, t, w);
    QueuedAre(parts);
    if t.stmt.Repeat? {
      OwnCount(m, t, w);
    }
  }

  lemma NowNoClash<S>(m: Meaning<S>, t: Task, w: World<S>)
    requires Proper(t.stmt)
    ensures var now := NowTasks(m, t, w);
            forall i, j :: 0 <= i < j < |now| && now[j].stmt.Repeat? ==> now[j].stmt.id !in Repeats(now[i].stmt)
  {
    var now, parts := NowTasks(m, t, w), Parts(m, t.stmt, w).0;
    var q := Queued(parts);
    NowIs(m, t, w);
    PartsProper(m, t.stmt, w);
    PartsInside(m, t.stmt, w);
    QueuedAre(parts);
    QueuedNoClash(parts);
    forall i, j | 0 <= i < j < |now| && now[j].stmt.Repeat? ensures now[j].stmt.id !in Repeats(now[i].stmt) {
      assert now[i].stmt == q[i];
      if j == |q| {
        assert q[i] in parts || q[i].Prim?;
      }
    }
  }

  /** What one evaluation queues satisfies the invariant by itself, and touches only counters of
      the evaluated statement. */
  lemma NowConfig<S>(m: Meaning<S>, t: Task, w: World<S>)
    requires Proper(t.stmt)
    ensures Config(NowTasks(m, t, w), NextWorld(m, t, w).counts)
    ensures forall i :: 0 <= i < |NowTasks(m, t, w)| ==> Repeats(NowTasks(m, t, w)[i].stmt) <= Repeats(t.stmt)
  {
    NowProper(m, t, w);
    NowCounts(m, t, w);
    NowNoClash(m, t, w);
  }

  lemma ConfigKept<S>(m: Meaning<S>, t: Task, rest: seq<Task>, w: World<S>)
    requires Config([t] + rest, w.counts)
    ensures Config(NowTasks(m, t, w) + rest, NextWorld(m, t, w).counts)
  {
    var ts := [t] + rest;
    assert ts[0] == t && forall i :: 0 <= i < |rest| ==> ts[i + 1] == rest[i];
    NowConfig(m, t, w);
    RestSame(m, t, rest, w);
    ConfigConcat(t.stmt, NowTasks(m, t, w), rest, NextWorld(m, t, w).counts);
  }

  /** Queues with the invariant go together when the one behind has nothing to fear from the
      statement that the one in front came from. */
  lemma ConfigConcat(s: Stmt, now: seq<Task>, rest: seq<Task>, counts: map<nat, int>)
    requires Config(now, counts) && Config(rest, counts)
    requires forall i :: 0 <= i < |now| ==> Repeats(now[i].stmt) <= Repeats(s)
    requires forall j :: 0 <= j < |rest| && rest[j].stmt.Repeat? ==> rest[j].stmt.id !in Repeats(s)
    ensures Config(now + rest, counts)
  {
    var all := now + rest;
    forall i, j | 0 <= i < j < |all| && all[j].stmt.Repeat? ensures all[j].stmt.id !in Repeats(all[i].stmt) {
      if j >= |now| {
        assert all[j] == rest[j - |now|];
        if i >= |now| {
          assert all[i] == rest[i - |now|];
        } else {
          assert Repeats(now[i].stmt) <= Repeats(s);
        }
      }
    }
  }

  // ---- what one evaluation queues are different objects ----

  function Weight(s: Stmt): nat
    decreases s
  {
    1 + match s
        case Begin(_, ss) => WeightAll(ss)
        case If(_, _, p, q) => (if p.Some? then Weight(p.value) else 0) + (if q.Some? then Weight(q.value) else 0)
        case Case(_, _, items) => WeightItems(items)
        case Forever(_, b) => Weight(b)
        case Repeat(_, _, b) => Weight(b)
        case While(_, _, p) => if p.Some? then Weight(p.value) else 0
        case For(_, i, _, n, p) =>
          (if i.Some? then Weight(i.value) else 0) + (if n.Some? then Weight(n.value) else 0)
          + (if p.Some? then Weight(p.value) else 0)
        case _ => 0
  }

  function WeightAll(ss: seq<Stmt>): nat
    decreases ss
  {
    if ss == [] then 0 else Weight(ss[0]) + WeightAll(ss[1..])
  }

  function WeightItems(items: seq<CaseItem>): nat
    decreases items
  {
    if items == [] then 0
    else (if items[0].part.Some? then Weight(items[0].part.value) else 0) + WeightItems(items[1..])
  }

  lemma {:induction false} QueuedLighter(ss: seq<Stmt>, n: nat)
    requires forall i :: 0 <= i < |ss| ==> Weight(ss[i]) < n
    ensures forall i :: 0 <= i < |Queued(ss)| ==> Weight(Queued(ss)[i]) < n
    decreases ss
  {
    if ss != [] {
      QueuedLighter(ss[1..], n);
    }
  }

  lemma NowApart<S>(m: Meaning<S>, t: Task, w: World<S>)
    requires Proper(t.stmt)
    ensures forall i, j :: 0 <= i < j < |NowTasks(m, t, w)| ==> NowTasks(m, t, w)[i].stmt != NowTasks(m, t, w)[j].stmt
  {
    var (parts, again) := Parts(m, t.stmt, w);
    var now, q := NowTasks(m, t, w), Queued(parts);
    NowIs(m, t, w);
    PartsProper(m, t.stmt, w);
    if again {
      QueuedLighter(parts, Weight(t.stmt));
    }
    forall i, j | 0 <= i < j < |now| ensures now[i].stmt != now[j].stmt {
      assert now[i].stmt == q[i];
      if j == |q| {
        assert Weight(q[i]) < Weight(t.stmt);
      }
    }
  }

  // ---- the queue and the structured semantics ----

  function Unfolded<S>(m: Meaning<S>, f: State<World<S>>): State<World<S>>
    requires f.running != []
  {
    var t := f.running[0];
    f.(running := NowTasks(m, t, f.world) + f.running[1..], world := NextWorld(m, t, f.world))
  }

  /** With nothing triggered, one step of the scheduler evaluates the head of the running process
      and puts what it sets up in front of the rest. */
  lemma StepUnfolds<S>(m: Meaning<S>, f: State<World<S>>, residue: bool)
    requires !f.stopped && f.running != [] && f.trig == [] && Proper(f.running[0].stmt)
    ensures Step(f, Unfold(m), residue) == Unfolded(m, f)
  {
    var t := f.running[0];
    NowApart(m, t, f.world);
    assert [] + NowTasks(m, t, f.world) == NowTasks(m, t, f.world);
    FreshIsAll([], NowTasks(m, t, f.world));
  }

  lemma RunUnfolds<S>(m: Meaning<S>, f: State<World<S>>, n: nat)
    requires !f.stopped && f.running != [] && f.trig == [] && Proper(f.running[0].stmt)
    ensures Run(f, Unfold(m), Falses(n + 1)) == Run(Unfolded(m, f), Unfold(m), Falses(n))
  {
    StepUnfolds(m, f, false);
    assert Falses(n + 1)[1..] == Falses(n) && Falses(n + 1)[0] == false;
  }

  lemma RunNothing<W>(f: State<W>, eval: Evaluator<W>)
    ensures Run(f, eval, Falses(0)) == f
  {
    assert Falses(0) == [];
  }

  /** The evaluations that the structured run still has ahead. */
  lemma {:induction false} PendingCosts<S>(m: Meaning<S>, ts: seq<Task>, counts: map<nat, int>, o: Out<S>, fuel: nat)
    requires Pending(m, ts, counts, o, fuel).Some? && Config(ts, counts)
    ensures o.evals + |ts| <= Pending(m, ts, counts, o, fuel).value.evals
    decreases ts
  {
    if ts != [] {
      var s := ts[0].stmt;
      var x := Residual(m, s, counts, o, fuel).value;
      match s {
        case Repeat(id, _, b) =>
          if CountOf(counts, id) >= 0 {
            TimesCosts(m, CountOf(counts, id), b, o, fuel);
          } else {
            BigCosts(m, s, o, fuel);
          }
        case For(_, _, c, n, p) => LoopCosts(m, Some(c), PartList(p) + PartList(n), o, fuel);
        case _ => BigCosts(m, s, o, fuel);
      }
      PendingCosts(m, ts[1..], counts, x, fuel);
    }
  }

  /** The structured run of a queue, after its head was evaluated. */
  lemma PendingForward<S>(m: Meaning<S>, t: Task, rest: seq<Task>, w: World<S>, fuel: nat)
    requires Config([t] + rest, w.counts) && Pending(m, [t] + rest, w.counts, w.out, fuel).Some?
    ensures var w' := NextWorld(m, t, w);
            && Config(NowTasks(m, t, w) + rest, w'.counts)
            && Pending(m, NowTasks(m, t, w) + rest, w'.counts, w'.out, fuel) == Pending(m, [t] + rest, w.counts, w.out, fuel)
  {
    var w', now := NextWorld(m, t, w), NowTasks(m, t, w);
    assert ([t] + rest)[0] == t && ([t] + rest)[1..] == rest;
    HeadForward(m, t, w, fuel);
    ConfigKept(m, t, rest, w);
    RestSame(m, t, rest, w);
    PendingConcat(m, now, rest, w'.counts, w'.out, fuel);
    PendingSame(m, rest, w.counts, w'.counts, Residual(m, t.stmt, w.counts, w.out, fuel).value, fuel);
  }

  lemma PendingBackward<S>(m: Meaning<S>, t: Task, rest: seq<Task>, w: World<S>, fuel: nat)
    requires Config([t] + rest, w.counts)
    requires var w' := NextWorld(m, t, w); Pending(m, NowTasks(m, t, w) + rest, w'.counts, w'.out, fuel).Some?
    ensures var w' := NextWorld(m, t, w);
            Pending(m, [t] + rest, w.counts, w.out, fuel + 3) == Pending(m, NowTasks(m, t, w) + rest, w'.counts, w'.out, fuel)
  {
    var w', now := NextWorld(m, t, w), NowTasks(m, t, w);
    assert ([t] + rest)[0] == t && ([t] + rest)[1..] == rest;
    PendingConcat(m, now, rest, w'.counts, w'.out, fuel);
    HeadBackward(m, t, w, fuel);
    RestSame(m, t, rest, w);
    var x := Pending(m, now, w'.counts, w'.out, fuel).value;
    PendingSame(m, rest, w.counts, w'.counts, x, fuel);
    PendingMono(m, rest, w.counts, x, fuel, fuel + 3);
  }

  /** The queue and the world after n evaluations; an empty queue stays as it is. */
  function Unrolled<S>(m: Meaning<S>, ts: seq<Task>, w: World<S>, n: nat): (seq<Task>, World<S>)
    decreases n
  {
    if n == 0 || ts == [] then (ts, w)
    else Unrolled(m, NowTasks(m, ts[0], w) + ts[1..], NextWorld(m, ts[0], w), n - 1)
  }

  /** If the structured semantics of what is queued ends in r, the queue is empty, in r, after
      exactly r's number of evaluations. */
  lemma {:induction false} QueueFollows<S>(m: Meaning<S>, ts: seq<Task>, w: World<S>, fuel: nat, r: Out<S>, n: nat)
    requires Config(ts, w.counts) && Pending(m, ts, w.counts, w.out, fuel) == Some(r)
    requires r.evals == w.out.evals + n
    ensures Unrolled(m, ts, w, n).0 == [] && Unrolled(m, ts, w, n).1.out == r
    ensures n > 0 ==> Unrolled(m, ts, w, n - 1).0 != []
    decreases n
  {
    if ts != [] {
      PendingCosts(m, ts, w.counts, w.out, fuel);
      assert ts == [ts[0]] + ts[1..];
      PendingForward(m, ts[0], ts[1..], w, fuel);
      QueueFollows(m, NowTasks(m, ts[0], w) + ts[1..], NextWorld(m, ts[0], w), fuel, r, n - 1);
    }
  }

  /** And if the queue is empty after n evaluations, the structured semantics ends there. */
  lemma {:induction false} QueueIsFollowed<S>(m: Meaning<S>, ts: seq<Task>, w: World<S>, n: nat)
    requires Config(ts, w.counts) && Unrolled(m, ts, w, n).0 == []
    ensures Pending(m, ts, w.counts, w.out, 3 * n) == Some(Unrolled(m, ts, w, n).1.out)
    decreases n
  {
    if ts != [] {
      var t, rest := ts[0], ts[1..];
      ConfigNext(m, ts, w);
      UnrolledNext(m, ts, w, n - 1);
      QueueIsFollowed(m, NowTasks(m, t, w) + rest, NextWorld(m, t, w), n - 1);
      assert ts == [t] + rest;
      PendingBackward(m, t, rest, w, 3 * (n - 1));
    }
  }

  /** The scheduler unrolls the running process, with k behind it. */
  lemma {:induction false} RunUnrolls<S>(m: Meaning<S>, f: State<World<S>>, ts: seq<Task>, k: seq<Task>, n: nat)
    requires !f.stopped && f.trig == [] && f.running == ts + k && Config(ts, f.world.counts)
    requires n == 0 || Unrolled(m, ts, f.world, n - 1).0 != []
    ensures Run(f, Unfold(m), Falses(n)) ==
            f.(running := Unrolled(m, ts, f.world, n).0 + k, world := Unrolled(m, ts, f.world, n).1)
    decreases n
  {
    if n == 0 {
      RunNothing(f, Unfold(m));
    } else {
      UnrolledStays(m, ts, f.world, n - 1);
      ConfigNext(m, ts, f.world);
      OneUnrolled(m, f, ts, k, n - 1);
      var next, w' := NowTasks(m, ts[0], f.world) + ts[1..], NextWorld(m, ts[0], f.world);
      UnrolledNext(m, ts, f.world, n - 1);
      RunUnrolls(m, f.(running := next + k, world := w'), next, k, n - 1);
    }
  }

  lemma UnrolledNext<S>(m: Meaning<S>, ts: seq<Task>, w: World<S>, n: nat)
    requires ts != []
    ensures var next, w' := NowTasks(m, ts[0], w) + ts[1..], NextWorld(m, ts[0], w);
            && Unrolled(m, ts, w, n + 1) == Unrolled(m, next, w', n)
            && (n > 0 ==> Unrolled(m, ts, w, n) == Unrolled(m, next, w', n - 1))
  {
  }

  lemma ConfigNext<S>(m: Meaning<S>, ts: seq<Task>, w: World<S>)
    requires ts != [] && Config(ts, w.counts)
    ensures Proper(ts[0].stmt) && Config(NowTasks(m, ts[0], w) + ts[1..], NextWorld(m, ts[0], w).counts)
  {
    assert ts == [ts[0]] + ts[1..];
    ConfigKept(m, ts[0], ts[1..], w);
  }

  lemma TailOfConcat<T>(p: seq<T>, q: seq<T>)
    requires p != []
    ensures (p + q)[0] == p[0] && (p + q)[1..] == p[1..] + q
  {
  }

  lemma OneUnrolled<S>(m: Meaning<S>, f: State<World<S>>, ts: seq<Task>, k: seq<Task>, n: nat)
    requires !f.stopped && f.trig == [] && ts != [] && f.running == ts + k && Proper(ts[0].stmt)
    ensures var next, w' := NowTasks(m, ts[0], f.world) + ts[1..], NextWorld(m, ts[0], f.world);
            Run(f, Unfold(m), Falses(n + 1)) == Run(f.(running := next + k, world := w'), Unfold(m), Falses(n))
  {
    TailOfConcat(ts, k);
    RunUnfolds(m, f, n);
    Assoc(NowTasks(m, ts[0], f.world), ts[1..], k);
  }

  lemma UnrolledStays<S>(m: Meaning<S>, ts: seq<Task>, w: World<S>, n: nat)
    requires Unrolled(m, ts, w, n).0 != []
    ensures ts != []
  {
  }

  lemma {:induction false} UnrolledEarlier<S>(m: Meaning<S>, ts: seq<Task>, w: World<S>, n: nat)
    requires Unrolled(m, ts, w, n + 1).0 != []
    ensures Unrolled(m, ts, w, n).0 != []
    decreases n
  {
    if n > 0 {
      UnrolledEarlier(m, NowTasks(m, ts[0], w) + ts[1..], NextWorld(m, ts[0], w), n - 1);
    }
  }

  /** The first number of evaluations, up to n, after which the queue is empty. */
  lemma {:induction false} FirstEmpty<S>(m: Meaning<S>, ts: seq<Task>, w: World<S>, n: nat) returns (k: nat)
    requires Unrolled(m, ts, w, n).0 == []
    ensures k <= n && Unrolled(m, ts, w, k) == Unrolled(m, ts, w, n)
    ensures k == 0 || Unrolled(m, ts, w, k - 1).0 != []
    decreases n
  {
    if ts == [] {
      k := 0;
    } else {
      var k' := FirstEmpty(m, NowTasks(m, ts[0], w) + ts[1..], NextWorld(m, ts[0], w), n - 1);
      k := k' + 1;
    }
  }

  lemma AloneUnrolls<S>(m: Meaning<S>, f: State<World<S>>, ts: seq<Task>, n: nat)
    requires !f.stopped && f.trig == [] && f.running == ts && Config(ts, f.world.counts)
    requires n == 0 || Unrolled(m, ts, f.world, n - 1).0 != []
    ensures var u := Unrolled(m, ts, f.world, n);
            Run(f, Unfold(m), Falses(n)) == f.(running := u.0, world := u.1)
  {
    NothingAfter(ts);
    RunUnrolls(m, f, ts, [], n);
    NothingAfter(Unrolled(m, ts, f.world, n).0);
  }

  lemma NothingAfter<T>(p: seq<T>)
    ensures p + [] == p
  {
  }

  lemma EndsInQueue<S>(m: Meaning<S>, f: State<World<S>>, ts: seq<Task>, n: nat)
    requires !f.stopped && f.trig == [] && f.running == ts && Config(ts, f.world.counts)
    requires Run(f, Unfold(m), Falses(n)).running == []
    ensures Unrolled(m, ts, f.world, n).0 == []
  {
    if Unrolled(m, ts, f.world, n).0 != [] {
      StillGoing(m, ts, f.world, n);
      AloneUnrolls(m, f, ts, n);
    }
  }

  lemma StillGoing<S>(m: Meaning<S>, ts: seq<Task>, w: World<S>, n: nat)
    requires Unrolled(m, ts, w, n).0 != []
    ensures n == 0 || Unrolled(m, ts, w, n - 1).0 != []
  {
    if n > 0 {
      UnrolledEarlier(m, ts, w, n - 1);
    }
  }

  /** A scheduler with nothing else to do ends where the queue does. */
  lemma RunToTheEnd<S>(m: Meaning<S>, f: State<World<S>>, ts: seq<Task>, n: nat)
    requires !f.stopped && f.trig == [] && f.ready == [] && f.running == ts && Config(ts, f.world.counts)
    requires Unrolled(m, ts, f.world, n).0 == []
    ensures Unrolled(m, ts, f.world, n).1 == Run(f, Unfold(m), Falses(n)).world
  {
    var k := FirstEmpty(m, ts, f.world, n);
    AloneUnrolls(m, f, ts, k);
    var g := Run(f, Unfold(m), Falses(k));
    assert Finished(g);
    RunConcat(f, Unfold(m), Falses(k), Falses(n - k));
    assert Falses(k) + Falses(n - k) == Falses(n);
    FinishedStays(g, Unfold(m), Falses(n - k));
  }

  lemma {:induction false} FinishedStays<W>(f: State<W>, eval: Evaluator<W>, rs: seq<bool>)
    requires Finished(f)
    ensures Run(f, eval, rs) == f
    decreases rs
  {
    if rs != [] {
      FinishedStays(f, eval, rs[1..]);
    }
  }

  lemma SetUpConfig(s: Stmt, ctx: set<nat>, counts: map<nat, int>)
    requires Proper(s)
    ensures Config(SetUp(s, ctx), Reset([s], counts))
  {
    ResetCounts([s], counts, s.id);
    assert [s][0] == s;
  }

  /** A statement set up at the front of a process: when its structured semantics ends, the queue
      has run exactly its plain statements, in order, to the same store, in the same number of
      evaluations, and the process goes on with what was behind it. */
  lemma StructuredRunsInQueue<S>(m: Meaning<S>, f: State<World<S>>, s: Stmt, ctx: set<nat>, k: seq<Task>, fuel: nat)
    returns (n: nat, g: State<World<S>>)
    requires Proper(s) && !f.stopped && f.trig == [] && f.running == SetUp(s, ctx) + k
    requires f.world.counts == Reset([s], f.world.counts)
    requires Big(m, s, f.world.out, fuel).Some?
    ensures g == Run(f, Unfold(m), Falses(n)) && g == f.(running := k, world := g.world)
    ensures Big(m, s, f.world.out, fuel) == Some(g.world.out) && g.world.out.evals == f.world.out.evals + n
  {
    n := StructuredUnrolls(m, s, ctx, f.world, fuel);
    g := RunsEmpty(m, f, SetUp(s, ctx), k, n);
  }

  lemma RunsEmpty<S>(m: Meaning<S>, f: State<World<S>>, ts: seq<Task>, k: seq<Task>, n: nat) returns (g: State<World<S>>)
    requires !f.stopped && f.trig == [] && f.running == ts + k && Config(ts, f.world.counts)
    requires n == 0 || Unrolled(m, ts, f.world, n - 1).0 != []
    requires Unrolled(m, ts, f.world, n).0 == []
    ensures g == Run(f, Unfold(m), Falses(n)) == f.(running := k, world := Unrolled(m, ts, f.world, n).1)
  {
    g := Run(f, Unfold(m), Falses(n));
    RunUnrolls(m, f, ts, k, n);
    NothingBefore(k);
  }

  lemma NothingBefore<T>(p: seq<T>)
    ensures [] + p == p
  {
  }

  /** Unrolling the queue empties it in as many evaluations as the structured run makes. */
  lemma StructuredUnrolls<S>(m: Meaning<S>, s: Stmt, ctx: set<nat>, w: World<S>, fuel: nat) returns (n: nat)
    requires Proper(s) && w.counts == Reset([s], w.counts) && Big(m, s, w.out, fuel).Some?
    ensures Config(SetUp(s, ctx), w.counts)
    ensures Big(m, s, w.out, fuel).value.evals == w.out.evals + n
    ensures n == 0 || Unrolled(m, SetUp(s, ctx), w, n - 1).0 != []
    ensures Unrolled(m, SetUp(s, ctx), w, n).0 == []
    ensures Unrolled(m, SetUp(s, ctx), w, n).1.out == Big(m, s, w.out, fuel).value
  {
    SetUpConfig(s, ctx, w.counts);
    ResetCounts([s], w.counts, s.id);
    assert [s][0] == s;
    OneSetUp(m, s, ctx, w.counts, w.out, fuel);
    BigCosts(m, s, w.out, fuel);
    var r := Big(m, s, w.out, fuel).value;
    n := r.evals - w.out.evals;
    QueueFollows(m, SetUp(s, ctx), w, fuel, r, n);
  }

  /** And when the queue runs empty, the structured semantics ends there: loops that never end in
      the one never end in the other. */
  lemma QueueRunsStructured<S>(m: Meaning<S>, f: State<World<S>>, s: Stmt, ctx: set<nat>, n: nat)
    requires Proper(s) && !f.stopped && f.trig == [] && f.ready == [] && f.running == SetUp(s, ctx)
    requires f.world.counts == Reset([s], f.world.counts)
    requires Run(f, Unfold(m), Falses(n)).running == []
    ensures Big(m, s, f.world.out, 3 * n + 1) == Some(Run(f, Unfold(m), Falses(n)).world.out)
  {
    SetUpConfig(s, ctx, f.world.counts);
    ResetCounts([s], f.world.counts, s.id);
    assert [s][0] == s;
    EndsInQueue(m, f, SetUp(s, ctx), n);
    RunToTheEnd(m, f, SetUp(s, ctx), n);
    QueueIsFollowed(m, SetUp(s, ctx), f.world, n);
    OneSetUp(m, s, ctx, f.world.counts, f.world.out, 3 * n);
  }
}
