/** What each control statement does, statement by statement: which parts one evaluation queues, and
    what loops amount to. */
module Control {
  import opened Basics
  import opened Actions
  import opened Flat
  import opened Unfolding

  /** What one evaluation of t queues. */
  function Queued<S>(m: Meaning<S>, t: Task, w: World<S>): seq<Task> {
    Unfold(m)(t, w, 0).now
  }

  // ---- setting up ----

  /** A block is set up in its own context, a for loop behind its initial assignment, and any other
      statement as it is; several statements one after the other. */
  lemma SetUpIs(s: Stmt, ss: seq<Stmt>, ctx: set<nat>)
    ensures SetUp(s, ctx) ==
            if s.Begin? then [Task(s, ctx + {s.id})]
            else if s.For? && s.init.Some? then [Task(s.init.value, ctx), Task(s, ctx)]
            else [Task(s, ctx)]
    ensures SetUpAll([], ctx) == [] && SetUpAll([s] + ss, ctx) == SetUp(s, ctx) + SetUpAll(ss, ctx)
  {
    assert ([s] + ss)[1..] == ss;
  }

  // ---- case ----

  /** Some label of the arm is the subject's value. */
  predicate HasLabel<S>(m: Meaning<S>, subject: nat, item: CaseItem, store: S) {
    exists k :: 0 <= k < |item.labels| && m.matches(subject, item.labels[k], store)
  }

  /** Arm i is the first one, defaults aside, with a label that matches. */
  predicate FirstWithLabel<S>(m: Meaning<S>, subject: nat, items: seq<CaseItem>, store: S, i: nat) {
    && i < |items| && !items[i].isDefault && HasLabel(m, subject, items[i], store)
    && forall j :: 0 <= j < i && !items[j].isDefault ==> !HasLabel(m, subject, items[j], store)
  }

  predicate NoneWithLabel<S>(m: Meaning<S>, subject: nat, items: seq<CaseItem>, store: S) {
    forall j :: 0 <= j < |items| && !items[j].isDefault ==> !HasLabel(m, subject, items[j], store)
  }

  lemma {:induction false} FirstLabelIsChosen<S>(m: Meaning<S>, subject: nat, items: seq<CaseItem>, store: S, i: nat)
    requires FirstWithLabel(m, subject, items, store, i)
    ensures FirstMatch(m, subject, items, store) == PartList(items[i].part)
    ensures Chosen(m, subject, items, store) == PartList(items[i].part)
    decreases i
  {
    assert Matching(m, subject, items[i], store);
    if i > 0 {
      assert items[1..][i - 1] == items[i];
      assert !items[0].isDefault ==> !HasLabel(m, subject, items[0], store);
      assert !Matching(m, subject, items[0], store);
      forall j | 0 <= j < i - 1 && !items[1..][j].isDefault ensures !HasLabel(m, subject, items[1..][j], store) {
        assert items[1..][j] == items[j + 1];
      }
      FirstLabelIsChosen(m, subject, items[1..], store, i - 1);
    }
  }

  lemma NoLabelIsDefault<S>(m: Meaning<S>, subject: nat, items: seq<CaseItem>, store: S)
    requires NoneWithLabel(m, subject, items, store)
    ensures Chosen(m, subject, items, store) == Defaults(items)
  {
    forall i | 0 <= i < |items| ensures !Matching(m, subject, items[i], store) {
      assert !items[i].isDefault ==> !HasLabel(m, subject, items[i], store);
    }
  }

  /** The parts of these arms. */
  function PartsOf(arms: seq<CaseItem>): (r: seq<Stmt>)
    requires forall i :: 0 <= i < |arms| ==> arms[i].part.Some?
    ensures |r| == |arms| && forall i :: 0 <= i < |arms| ==> r[i] == arms[i].part.value
  {
    seq(|arms|, i requires 0 <= i < |arms| => arms[i].part.value)
  }

  /** These are the default arms that have a part, in their order. */
  ghost predicate AreDefaults(items: seq<CaseItem>, at: seq<nat>, arms: seq<CaseItem>) {
    && Selects(items, (x: CaseItem) => x.isDefault && x.part.Some?, at, arms)
    && forall i :: 0 <= i < |arms| ==> arms[i].part.Some?
  }

  lemma {:induction false} DefaultsAre(items: seq<CaseItem>) returns (at: seq<nat>, arms: seq<CaseItem>)
    ensures AreDefaults(items, at, arms) && Defaults(items) == PartsOf(arms)
  {
    at, arms := [], [];
    if items != [] {
      var more, rest := DefaultsAre(items[1..]);
      at := SelectFirst(items, (x: CaseItem) => x.isDefault && x.part.Some?, more, rest);
      arms := (if items[0].isDefault && items[0].part.Some? then [items[0]] else []) + rest;
      OneDefault(items, rest);
    }
  }

  lemma OneDefault(items: seq<CaseItem>, rest: seq<CaseItem>)
    requires items != [] && (forall i :: 0 <= i < |rest| ==> rest[i].part.Some?) && Defaults(items[1..]) == PartsOf(rest)
    ensures items[0].isDefault && items[0].part.Some? ==> Defaults(items) == PartsOf([items[0]] + rest)
    ensures !(items[0].isDefault && items[0].part.Some?) ==> Defaults(items) == PartsOf([] + rest)
  {
    assert [] + rest == rest && [] + PartsOf(rest) == PartsOf(rest);
    if items[0].isDefault && items[0].part.Some? {
      PartsOfMore(items[0], rest);
    }
  }

  lemma PartsOfMore(x: CaseItem, rest: seq<CaseItem>)
    requires x.part.Some? && forall i :: 0 <= i < |rest| ==> rest[i].part.Some?
    ensures PartsOf([x] + rest) == [x.part.value] + PartsOf(rest)
  {
    var p, q := PartsOf([x] + rest), [x.part.value] + PartsOf(rest);
    forall i | 0 <= i < |p| ensures p[i] == q[i] {
      assert i > 0 ==> ([x] + rest)[i] == rest[i - 1] && q[i] == PartsOf(rest)[i - 1];
    }
  }

  /** A case statement queues exactly the part of its first arm with a matching label. */
  lemma CaseTakesFirstMatch<S>(m: Meaning<S>, t: Task, w: World<S>, i: nat)
    requires t.stmt.Case? && FirstWithLabel(m, t.stmt.subject, t.stmt.items, w.out.store, i)
    ensures Queued(m, t, w) == SetUpAll(PartList(t.stmt.items[i].part), t.ctx)
    ensures forall o: Out<S>, fuel: nat :: o.store == w.out.store && fuel > 0 ==>
              Big(m, t.stmt, o, fuel) == BigSeq(m, PartList(t.stmt.items[i].part), Tick(o), fuel - 1)
  {
    FirstLabelIsChosen(m, t.stmt.subject, t.stmt.items, w.out.store, i);
    assert SetUpAll(PartList(t.stmt.items[i].part), t.ctx) + [] == SetUpAll(PartList(t.stmt.items[i].part), t.ctx);
  }

  /** Without a match it queues exactly the parts of the default arms, in order. */
  lemma CaseTakesDefaults<S>(m: Meaning<S>, t: Task, w: World<S>) returns (at: seq<nat>, arms: seq<CaseItem>)
    requires t.stmt.Case? && NoneWithLabel(m, t.stmt.subject, t.stmt.items, w.out.store)
    ensures AreDefaults(t.stmt.items, at, arms) && Queued(m, t, w) == SetUpAll(PartsOf(arms), t.ctx)
    ensures forall o: Out<S>, fuel: nat :: o.store == w.out.store && fuel > 0 ==>
              Big(m, t.stmt, o, fuel) == BigSeq(m, PartsOf(arms), Tick(o), fuel - 1)
  {
    NoLabelIsDefault(m, t.stmt.subject, t.stmt.items, w.out.store);
    at, arms := DefaultsAre(t.stmt.items);
    assert SetUpAll(PartsOf(arms), t.ctx) + [] == SetUpAll(PartsOf(arms), t.ctx);
  }

  // ---- the other statements ----

  /** Which parts an evaluation queues, and whether the statement queues itself behind them. */
  predicate Queues<S>(m: Meaning<S>, t: Task, w: World<S>, parts: seq<Stmt>, again: bool) {
    Queued(m, t, w) == SetUpAll(parts, t.ctx) + if again then [t] else []
  }

  /** A condition is true when it is not zero. */
  lemma ConditionsDecide<S>(m: Meaning<S>, t: Task, w: World<S>)
    ensures t.stmt.If? ==>
              Queues(m, t, w, PartList(if m.value(t.stmt.cond, w.out.store) == 0 then t.stmt.elsePart else t.stmt.thenPart), false)
    ensures t.stmt.While? && m.value(t.stmt.cond, w.out.store) != 0 ==> Queues(m, t, w, PartList(t.stmt.part), true)
    ensures t.stmt.For? && m.value(t.stmt.cond, w.out.store) != 0 ==>
              Queues(m, t, w, PartList(t.stmt.part) + PartList(t.stmt.step), true)
    ensures (t.stmt.While? || t.stmt.For?) && m.value(t.stmt.cond, w.out.store) == 0 ==> Queued(m, t, w) == []
  {
  }

  lemma BlocksAndLoopsQueue<S>(m: Meaning<S>, t: Task, w: World<S>)
    ensures t.stmt.Begin? ==> Queues(m, t, w, t.stmt.stmts, false)
    ensures t.stmt.Initial? ==> Queues(m, t, w, [t.stmt.body], false)
    ensures t.stmt.Always? || t.stmt.Forever? ==> Queues(m, t, w, [t.stmt.body], true)
    ensures t.stmt.Prim? ==>
              var o := Unfold(m)(t, w, 0).world.out;
              Queued(m, t, w) == [] && o.store == m.run(t.stmt.id, w.out.store) && o.trace == w.out.trace + [t.stmt.id]
    ensures !t.stmt.Prim? ==>
              var o := Unfold(m)(t, w, 0).world.out; o.store == w.out.store && o.trace == w.out.trace
  {
  }

  // ---- what loops amount to ----

  function Copies(id: nat, n: nat): (r: seq<nat>)
    ensures |r| == n && forall i :: 0 <= i < n ==> r[i] == id
  {
    seq(n, i => id)
  }

  lemma {:induction false} TimesRuns<S>(m: Meaning<S>, n: nat, id: nat, o: Out<S>, fuel: nat)
    requires BigTimes(m, n, Prim(id), o, fuel).Some?
    ensures BigTimes(m, n, Prim(id), o, fuel).value.trace == o.trace + Copies(id, n)
    decreases n
  {
    if n == 0 {
      assert o.trace + Copies(id, 0) == o.trace;
    } else {
      var o1 := Big(m, Prim(id), Tick(o), fuel).value;
      TimesRuns(m, n - 1, id, o1, fuel);
      assert (o.trace + [id]) + Copies(id, n - 1) == o.trace + Copies(id, n);
    }
  }

  /** A repeat statement runs its body as often as its count says, which is taken once, and not at all
      for a count below one. */
  lemma RepeatRuns<S>(m: Meaning<S>, s: Stmt, o: Out<S>, fuel: nat)
    requires s.Repeat? && s.body.Prim? && Big(m, s, o, fuel).Some?
    ensures var n := m.value(s.count, o.store);
      Big(m, s, o, fuel).value.trace == o.trace + Copies(s.body.id, if n < 1 then 0 else n)
  {
    var n := m.value(s.count, o.store);
    if n < 1 {
      assert o.trace + Copies(s.body.id, 0) == o.trace;
    } else {
      TimesRuns(m, n, s.body.id, o, fuel - 1);
    }
  }
}
