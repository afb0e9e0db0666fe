/** The time wheel: linked time slots in the order of their times, each with its five lists of
    actions. It refines a map from times to the contents of the lists. */
module TimeWheel {
  import opened Actions
  import opened ActionLists
  import Flat
  import Views

  // ---- what the wheel stands for ----

  /** The contents of the five lists of a slot. */
  datatype Five = Five(active: seq<Action>, trig: seq<Action>, zdly: seq<Action>, nbau: seq<Action>, mon: seq<Action>)

  const NOTHING := Five([], [], [], [], [])

  type Plan = map<nat, Five>

  function Of(q: Five, r: Region): seq<Action> {
    match r
    case Active => q.active
    case Triggered => q.trig
    case Inactive => q.zdly
    case Update => q.nbau
    case Monitor => q.mon
  }

  function With(q: Five, r: Region, s: seq<Action>): Five {
    match r
    case Active => q.(active := s)
    case Triggered => q.(trig := s)
    case Inactive => q.(zdly := s)
    case Update => q.(nbau := s)
    case Monitor => q.(mon := s)
  }

  /** The plan once there is a slot for time t. */
  function Opened(p: Plan, t: nat): Plan {
    if t in p then p else p[t := NOTHING]
  }

  function Planned(p: Plan, t: nat, r: Region, a: Action): Plan {
    var p' := Opened(p, t);
    p'[t := With(p'[t], r, Appended(Of(p'[t], r), a))]
  }

  /** What the plan has for time t in a region, slot or no slot. */
  function At(p: Plan, t: nat, r: Region): seq<Action> {
    if t in p then Of(p[t], r) else []
  }

  /** A purge spares the triggered list. */
  function PurgedFive(q: Five, blk: nat): Five {
    Five(Purged(q.active, blk), q.trig, Purged(q.zdly, blk), Purged(q.nbau, blk), Purged(q.mon, blk))
  }

  /** At every time, a purge clears the block from each list but the triggered one. */
  lemma PurgeClears(p: Plan, blk: nat, t: nat, r: Region)
    ensures r.Triggered? ==> At(PurgedPlan(p, blk), t, r) == At(p, t, r)
    ensures !r.Triggered? ==> Views.Cleared(At(p, t, r), At(PurgedPlan(p, blk), t, r), blk)
  {
    Views.PurgedCleared(At(p, t, r), blk);
  }

  /** An append extends exactly one list, at its end, or changes nothing when that list has the
      statement already. */
  lemma AppendIsLocal(p: Plan, t: nat, r: Region, a: Action)
    ensures forall u: nat, s :: (u, s) != (t, r) ==> At(Planned(p, t, r, a), u, s) == At(p, u, s)
    ensures var before, after := At(p, t, r), At(Planned(p, t, r, a), t, r);
            if a.Plain? && Holds(before, a.task.stmt) then after == before else after == before + [a]
  {
  }

  /** The active lists of a plan: the scheduler's future slots. */
  function Actives(p: Plan): map<nat, seq<Action>> {
    map t | t in p :: p[t].active
  }

  /** The wheel does to the active lists what the scheduler does to its future: a statement or a
      parked process goes to the end of the list for its time, and a purge takes place in all. */
  lemma WheelIsFuture(p: Plan, t: nat, a: Action, blk: nat)
    ensures Actives(Planned(p, t, Active, a)) == Actives(p)[t := Appended(Flat.ListAt(Actives(p), t), a)]
    ensures Actives(PurgedPlan(p, blk)) == Views.PurgedQueues(Actives(p), blk)
  {
    assert Actives(PurgedPlan(p, blk)).Keys == Views.PurgedQueues(Actives(p), blk).Keys;
  }

  // ---- the start of a round ----

  /** The region that the next round runs, if any has work. */
  function Next(q: Five): Region {
    if q.active != [] then Active
    else if q.zdly != [] then Inactive
    else if q.nbau != [] then Update
    else Monitor
  }

  /** A round starts as the scheduler's does: the first region with work becomes the ready list, and
      is empty from then on. */
  lemma RoundIsPromoted<W>(f: Flat.State<W>, q: Five)
    requires f.ready == Views.Queue(q.active) && f.zdly == Views.Queue(q.zdly)
    requires f.nbau == Views.Queue(q.nbau) && f.mon == Views.Queue(q.mon)
    ensures var g, q' := if q.active == [] then Flat.Promoted(f) else f, With(q, Next(q), []);
      && g.ready == Views.Queue(Of(q, Next(q)))
      && g.zdly == Views.Queue(q'.zdly) && g.nbau == Views.Queue(q'.nbau) && g.mon == Views.Queue(q'.mon)
      && Started(q, q', Of(q, Next(q)))
  {
  }

  /** The list that a round of the slot q takes, and what is left of the slot: active work first, then
      zero-delay work, then updates, and monitor actions last. */
  predicate Started(q: Five, q': Five, taken: seq<Action>) {
    if q.active != [] then taken == q.active && q' == q.(active := [])
    else if q.zdly != [] then taken == q.zdly && q' == q.(zdly := [])
    else if q.nbau != [] then taken == q.nbau && q' == q.(nbau := [])
    else taken == q.mon && q' == q.(mon := [])
  }

  // ---- slots ----

  datatype Queues = Queues(active: ActionList, trig: ActionList, zdly: ActionList, nbau: ActionList, mon: ActionList)

  function Pick(qs: Queues, r: Region): ActionList {
    match r
    case Active => qs.active
    case Triggered => qs.trig
    case Inactive => qs.zdly
    case Update => qs.nbau
    case Monitor => qs.mon
  }

  class Slot {
    var time: nat
    var next: Slot?
    var queues: Queues

    constructor (time: nat, next: Slot?, queues: Queues)
      ensures this.time == time && this.next == next && this.queues == queues
    {
      this.time, this.next, this.queues := time, next, queues;
    }
  }

  /** The list is the one for time t and region r, and holds q. */
  ghost predicate Holds1(l: ActionList, t: nat, r: Region, q: seq<Action>)
    reads l, l.nodes
  {
    l.time == t && l.region == r && l.Valid() && l.contents == q
  }

  function ListsOf(qs: Queues): set<ActionList> {
    {qs.active, qs.trig, qs.zdly, qs.nbau, qs.mon}
  }

  method NewQueues(ghost t: nat) returns (qs: Queues)
    ensures fresh(ListsOf(qs)) && forall r :: Holds1(Pick(qs, r), t, r, [])
  {
    var a := NewList(t, Active);
    var b := NewList(t, Triggered);
    var c := NewList(t, Inactive);
    var d := NewList(t, Update);
    var e := NewList(t, Monitor);
    qs := Queues(a, b, c, d, e);
    forall r ensures Holds1(Pick(qs, r), t, r, []) {
      match r
      case Active => EmptyHolds(a, t, r);
      case Triggered => EmptyHolds(b, t, r);
      case Inactive => EmptyHolds(c, t, r);
      case Update => EmptyHolds(d, t, r);
      case Monitor => EmptyHolds(e, t, r);
    }
  }

  method NewList(ghost t: nat, ghost r: Region) returns (l: ActionList)
    ensures fresh(l) && l.head == null && l.nodes == [] && l.contents == [] && l.time == t && l.region == r
  {
    l := new ActionList(t, r);
  }

  lemma EmptyHolds(l: ActionList, t: nat, r: Region)
    requires l.head == null && l.nodes == [] && l.contents == [] && l.time == t && l.region == r
    ensures Holds1(l, t, r, [])
  {
  }

  /** The lists of every time, by reference. */
  type Table = map<nat, Queues>

  /** The objects of all lists, and possibly more. */
  datatype Footprint = Footprint(lists: set<ActionList>, nodes: set<Node>)

  /** The lists, which lie within the footprint, hold what the plan says. */
  ghost predicate Filled(table: Table, plan: Plan, fp: Footprint)
    reads fp.lists, fp.nodes
  {
    && (forall t :: t in table <==> t in plan)
    && (forall t, r {:trigger Pick(table[t], r)} :: t in table ==> Fits(Pick(table[t], r), t, r, Of(plan[t], r), fp))
  }

  ghost predicate Fits(l: ActionList, t: nat, r: Region, q: seq<Action>, fp: Footprint)
    reads fp.lists, fp.nodes
  {
    l in fp.lists && Covered(l.nodes, fp.nodes) && Holds1(l, t, r, q)
  }

  ghost predicate Covered(ns: seq<Node>, all: set<Node>) {
    forall n :: n in ns ==> n in all
  }

  // ---- the wheel ----

  ghost function SlotAt(ss: seq<Slot>, k: int): Slot? {
    if 0 <= k < |ss| then ss[k] else null
  }

  predicate Ascending(ts: seq<nat>) {
    forall i, j :: 0 <= i < j < |ts| ==> ts[i] < ts[j]
  }

  /** The slots hang together from the head on. */
  ghost predicate InOrder(head: Slot?, ss: seq<Slot>)
    reads ss
  {
    && head == SlotAt(ss, 0)
    && (forall i {:trigger ss[i].next} :: 0 <= i < |ss| ==> ss[i].next == SlotAt(ss, i + 1))
  }

  /** The slots have the times ts, and the lists of the table. */
  ghost predicate Tabled(ss: seq<Slot>, ts: seq<nat>, table: Table)
    reads ss
  {
    && |ss| == |ts| && (forall t :: t in table <==> t in ts)
    && (forall i {:trigger ss[i].time} :: 0 <= i < |ss| ==> ss[i].time == ts[i])
    && (forall i {:trigger ss[i].queues} :: 0 <= i < |ss| ==> ss[i].queues == table[ts[i]])
  }

  function Inserted<T>(q: seq<T>, k: nat, x: T): seq<T>
    requires k <= |q|
  {
    q[..k] + [x] + q[k..]
  }

  lemma InsertAscending(ts: seq<nat>, k: nat, t: nat)
    requires Ascending(ts) && k <= |ts| && (k > 0 ==> ts[k - 1] < t) && (k < |ts| ==> t < ts[k])
    ensures Ascending(Inserted(ts, k, t)) && t !in ts
  {
  }

  lemma InsertedHas<T>(q: seq<T>, k: nat, x: T, u: T)
    requires k <= |q|
    ensures u in Inserted(q, k, x) <==> u in q || u == x
  {
    assert q == q[..k] + q[k..];
  }

  /** A slot linked in at k. */
  lemma InsertInOrder(head: Slot?, ss: seq<Slot>, k: nat, s: Slot)
    requires 0 < k <= |ss| && head == ss[0]
    requires forall i :: 0 <= i < |ss| && i != k - 1 ==> ss[i].next == SlotAt(ss, i + 1)
    requires ss[k - 1].next == s && s.next == SlotAt(ss, k)
    ensures InOrder(head, Inserted(ss, k, s))
  {
    var ss' := Inserted(ss, k, s);
    forall i | 0 <= i < |ss'| ensures ss'[i].next == SlotAt(ss', i + 1) {
      if i < k - 1 {
        assert ss'[i] == ss[i];
      } else if i > k {
        assert ss'[i] == ss[i - 1];
      }
    }
  }

  lemma InsertTabled(ss: seq<Slot>, ts: seq<nat>, table: Table, k: nat, s: Slot)
    requires Tabled(ss, ts, table) && k <= |ss| && s.time !in ts
    ensures Tabled(Inserted(ss, k, s), Inserted(ts, k, s.time), table[s.time := s.queues])
  {
    var ss', ts' := Inserted(ss, k, s), Inserted(ts, k, s.time);
    forall u ensures u in ts' <==> u in ts || u == s.time {
      InsertedHas(ts, k, s.time, u);
    }
    forall i | 0 <= i < |ss'|
      ensures ss'[i].time == ts'[i] && ss'[i].queues == table[s.time := s.queues][ts'[i]]
    {
      if i != k {
        var j := if i < k then i else i - 1;
        assert ss'[i] == ss[j] && ts'[i] == ts[j];
      }
    }
  }

  /** The slots from the head on, their times, and the lists of those times. */
  datatype Shape = Shape(slots: seq<Slot>, times: seq<nat>, table: Table)

  ghost predicate Linked(head: Slot?, sh: Shape)
    reads sh.slots
  {
    InOrder(head, sh.slots) && Tabled(sh.slots, sh.times, sh.table) && Ascending(sh.times)
  }

  /** What the wheel amounts to: its slots, the plan they hold, and the objects the lists use. */
  datatype View = View(shape: Shape, plan: Plan, fp: Footprint)

  ghost predicate Good(head: Slot?, v: View)
    reads v.shape.slots, v.fp.lists, v.fp.nodes
  {
    Linked(head, v.shape) && Filled(v.shape.table, v.plan, v.fp)
  }

  /** What may have been added to a view since: only new objects. */
  twostate predicate Grown(v: View, new v': View) {
    && fresh(v'.fp.lists - v.fp.lists) && fresh(v'.fp.nodes - v.fp.nodes)
    && forall x <- v'.shape.slots :: x in v.shape.slots || fresh(x)
  }

  // The wheel is its first slot. The view, which is there for the proofs only, goes along with it.

  method NewWheel(t: nat) returns (head: Slot, ghost v: View)
    ensures Good(head, v) && v.plan == map[t := NOTHING]
    ensures fresh(v.shape.slots) && fresh(v.fp.lists) && fresh(v.fp.nodes)
  {
    var qs := NewQueues(t);
    head := new Slot(t, null, qs);
    v := View(Shape([head], [t], map[t := qs]), map[t := NOTHING], Footprint(ListsOf(qs), {}));
  }

  /** The slot for time t, which is made if there is none. When t comes before all others the
      first slot object becomes the slot for t, and a new one takes over what it held. */
  method FindSlot(head: Slot, ghost sh: Shape, t: nat) returns (s: Slot, ghost sh': Shape)
    requires Linked(head, sh)
    modifies sh.slots
    ensures Linked(head, sh') && s in sh'.slots && s.time == t
    ensures t in sh.table ==> sh'.table == sh.table
    ensures t !in sh.table ==>
              && t in sh'.table && sh'.table == sh.table[t := sh'.table[t]]
              && fresh(ListsOf(sh'.table[t])) && forall r :: Holds1(Pick(sh'.table[t], r), t, r, [])
    ensures forall x <- sh'.slots :: x in sh.slots || fresh(x)
  {
    sh' := sh;
    if t < head.time {
      var qs := NewQueues(t);
      sh' := OpenFirst(head, sh, t, qs);
      return head, sh';
    }
    var q: Slot?, sp: Slot? := head, null;
    ghost var k := 0;
    while q != null && q.time < t
      invariant k <= |sh.slots| && q == SlotAt(sh.slots, k) && sp == SlotAt(sh.slots, k - 1)
      invariant if sp == null then q == head else sp.time < t
      decreases |sh.slots| - k
    {
      sp, q, k := q, q.next, k + 1;
    }
    if q != null && q.time == t {
      assert t in sh.times;
      return q, sh;
    }
    var qs := NewQueues(t);
    s, sh' := OpenAfter(head, sh, sp, q, k, t, qs);
  }

  method OpenFirst(head: Slot, ghost sh: Shape, t: nat, qs: Queues) returns (ghost sh': Shape)
    requires Linked(head, sh) && t < head.time
    modifies head
    ensures Linked(head, sh') && head.time == t && sh'.table == sh.table[t := qs] && t !in sh.table
    ensures |sh'.slots| > 1 && fresh(sh'.slots[1]) && sh'.slots == [head] + ([sh'.slots[1]] + sh.slots[1..])
  {
    InsertAscending(sh.times, 0, t);
    ghost var ts := TakeOver(head, sh.slots, sh.times, sh.table, t, qs);
    sh' := Shape([head] + ([ts] + sh.slots[1..]), Inserted(sh.times, 0, t), sh.table[t := qs]);
  }

  method OpenAfter(ghost head: Slot, ghost sh: Shape, sp: Slot, q: Slot?, ghost k: nat, t: nat, qs: Queues)
    returns (s: Slot, ghost sh': Shape)
    requires Linked(head, sh) && 0 < k <= |sh.slots| && sp == sh.slots[k - 1] && q == SlotAt(sh.slots, k)
    requires sp.time < t && (q != null ==> t < q.time)
    modifies sp`next
    ensures Linked(head, sh') && sh'.table == sh.table[t := qs] && t !in sh.table
    ensures s.time == t && fresh(s) && sh'.slots == Inserted(sh.slots, k, s)
  {
    InsertAscending(sh.times, k, t);
    s := new Slot(t, q, qs);
    forall i | 0 <= i < |sh.slots| && i != k - 1 ensures sh.slots[i] != sp {
      assert sh.slots[i].time == sh.times[i] != sh.times[k - 1] == sh.slots[k - 1].time;
    }
    sp.next := s;
    InsertInOrder(head, sh.slots, k, s);
    InsertTabled(sh.slots, sh.times, sh.table, k, s);
    sh' := Shape(Inserted(sh.slots, k, s), Inserted(sh.times, k, t), sh.table[t := qs]);
  }

  /** The slot for time t, with the plan extended by it. */
  method SlotFor(head: Slot, ghost v: View, t: nat) returns (s: Slot, ghost v': View)
    requires Good(head, v)
    modifies v.shape.slots
    ensures Good(head, v') && v'.plan == Opened(v.plan, t) && Grown(v, v')
    ensures t in v'.shape.table && s.queues == v'.shape.table[t] && v'.fp.nodes == v.fp.nodes
  {
    ghost var sh;
    s, sh := FindSlot(head, v.shape, t);
    v' := v.(shape := sh);
    assert Filled(v.shape.table, v.plan, v.fp);
    if t !in v.plan {
      FilledFurther(v.shape.table, v.plan, t, s.queues, v.fp);
      v' := View(sh, v.plan[t := NOTHING], Wider(v.fp, s.queues));
    }
  }

  /** Append an action to the list of a region at a time. */
  method Append(head: Slot, ghost v: View, t: nat, r: Region, a: Action) returns (ghost v': View)
    requires Good(head, v)
    modifies v.shape.slots, v.fp.lists, v.fp.nodes
    ensures Good(head, v') && v'.plan == Planned(v.plan, t, r, a) && Grown(v, v')
  {
    var s;
    ghost var w;
    s, w := SlotFor(head, v, t);
    v' := AppendIn(head, w, s, t, r, a);
  }

  method AppendIn(ghost head: Slot, ghost v: View, s: Slot, ghost t: nat, r: Region, a: Action) returns (ghost v': View)
    requires Good(head, v) && t in v.shape.table && s.queues == v.shape.table[t]
    modifies v.fp.lists, v.fp.nodes
    ensures Good(head, v') && v' == v.(plan := Planned(v.plan, t, r, a), fp := v.fp.(nodes := v'.fp.nodes))
    ensures fresh(v'.fp.nodes - v.fp.nodes)
  {
    assert Fits(Pick(s.queues, r), t, r, Of(v.plan[t], r), v.fp);
    ghost var fp := AppendTo(v.shape.table, v.plan, v.fp, t, r, Pick(s.queues, r), a);
    v' := View(v.shape, Planned(v.plan, t, r, a), fp);
  }

  /** Purge a disabled block from all slots; the triggered lists are spared. */
  method Purge(head: Slot?, ghost v: View, blk: nat) returns (ghost v': View)
    requires Good(head, v)
    modifies v.fp.lists, v.fp.nodes
    ensures v' == v.(plan := PurgedPlan(v.plan, blk)) && Good(head, v')
  {
    var ts := head;
    ghost var k := 0;
    v' := v;
    while ts != null
      invariant k <= |v.shape.slots| && ts == SlotAt(v.shape.slots, k)
      invariant v' == v.(plan := v'.plan) && Good(head, v')
      invariant HalfPurged(v.plan, v'.plan, v.shape.times, k, blk)
      decreases |v.shape.slots| - k
    {
      HalfPurgedFurther(v.plan, v'.plan, v.shape.times, k, blk);
      v' := PurgeIts(head, v', ts, k, blk);
      ts, k := ts.next, k + 1;
    }
    HalfPurgedEnds(v.plan, v'.plan, v.shape.times, blk);
  }

  method PurgeIts(ghost head: Slot?, ghost v: View, s: Slot, ghost k: nat, blk: nat) returns (ghost v': View)
    requires Good(head, v) && k < |v.shape.slots| && s == v.shape.slots[k]
    modifies v.fp.lists, v.fp.nodes
    ensures Good(head, v') && v' == v.(plan := v'.plan)
    ensures v.shape.times[k] in v.plan
    ensures v'.plan == v.plan[v.shape.times[k] := PurgedFive(v.plan[v.shape.times[k]], blk)]
  {
    ghost var t := v.shape.times[k];
    PurgeSlot(v.shape.table, v.plan, v.fp, s.queues, t, blk);
    v' := v.(plan := v.plan[t := PurgedFive(v.plan[t], blk)]);
  }

  /** A round of the first slot starts: if the active list is empty the first region with work is
      promoted to it, and the active list is handed over. The chain that is handed over has what the
      region had, and all lists have right end pointers again. */
  method StartRound(head: Slot, ghost v: View) returns (first: Node?, ghost ns: seq<Node>, ghost v': View)
    requires Good(head, v)
    modifies v.fp.lists, v.fp.nodes
    ensures Good(head, v') && head.time == old(head.time) && head.time in v.plan
    ensures var t := head.time; var r := Next(v.plan[t]);
      && v' == v.(plan := v.plan[t := With(v.plan[t], r, [])])
      && Chained(first, ns) && Carries(ns, Of(v.plan[t], r))
    ensures exists taken :: Carries(ns, taken) && Started(v.plan[head.time], v'.plan[head.time], taken)
  {
    ghost var t := head.time;
    assert v.shape.slots[0].time == v.shape.times[0] && v.shape.slots[0].queues == v.shape.table[t];
    first, ns := TakeRound(v.shape.table, v.plan, v.fp, t, head.queues);
    v' := v.(plan := v.plan[t := With(v.plan[t], Next(v.plan[t]), [])]);
  }

  method TakeRound(ghost table: Table, ghost plan: Plan, ghost fp: Footprint, ghost t: nat, qs: Queues)
    returns (first: Node?, ghost ns: seq<Node>)
    requires Filled(table, plan, fp) && t in table && qs == table[t]
    modifies fp.lists, fp.nodes
    ensures Filled(table, plan[t := With(plan[t], Next(plan[t]), [])], fp)
    ensures Chained(first, ns) && Carries(ns, Of(plan[t], Next(plan[t])))
  {
    AllFit(table, plan, fp, t);
    assert qs.active == Pick(table[t], Active) && qs.zdly == Pick(table[t], Inactive) && qs.nbau == Pick(table[t], Update);
    if qs.active.head != null {
      first, ns := TakeActive(table, plan, fp, t, qs.active);
    } else if qs.zdly.head != null {
      first, ns := TakeFrom(table, plan, fp, t, Inactive, qs.active, qs.zdly);
    } else if qs.nbau.head != null {
      first, ns := TakeFrom(table, plan, fp, t, Update, qs.active, qs.nbau);
    } else {
      first, ns := TakeFrom(table, plan, fp, t, Monitor, qs.active, qs.mon);
    }
  }

  lemma AllFit(table: Table, plan: Plan, fp: Footprint, t: nat)
    requires Filled(table, plan, fp) && t in table
    ensures t in plan && forall r :: Fits(Pick(table[t], r), t, r, Of(plan[t], r), fp)
    ensures forall r :: Pick(table[t], r).head == null <==> Of(plan[t], r) == []
  {
    forall r ensures Fits(Pick(table[t], r), t, r, Of(plan[t], r), fp)
    ensures Pick(table[t], r).head == null <==> Of(plan[t], r) == []
    {
      assert Fits(Pick(table[t], r), t, r, Of(plan[t], r), fp);
    }
  }

  method TakeActive(ghost table: Table, ghost plan: Plan, ghost fp: Footprint, ghost t: nat, l: ActionList)
    returns (first: Node?, ghost ns: seq<Node>)
    requires Filled(table, plan, fp) && t in table && l == table[t].active
    modifies fp.lists, fp.nodes
    ensures Filled(table, plan[t := With(plan[t], Active, [])], fp)
    ensures Chained(first, ns) && Carries(ns, plan[t].active)
  {
    Apart(table, plan, fp, t, Active);
    AllFit(table, plan, fp, t);
    assert l == Pick(table[t], Active);
    first, ns := l.TakeAll();
    forall u, s | u in table
      ensures Fits(Pick(table[u], s), u, s, Of(plan[t := With(plan[t], Active, [])][u], s), fp)
    {
      assert old(Fits(Pick(table[u], s), u, s, Of(plan[u], s), fp));
    }
  }

  /** A region is promoted to the empty active list, which is handed over. */
  method TakeFrom(ghost table: Table, ghost plan: Plan, ghost fp: Footprint, ghost t: nat, ghost r: Region,
                  l: ActionList, from: ActionList)
    returns (first: Node?, ghost ns: seq<Node>)
    requires Filled(table, plan, fp) && t in table && r != Active && plan[t].active == []
    requires l == table[t].active && from == Pick(table[t], r)
    modifies fp.lists, fp.nodes
    ensures Filled(table, plan[t := With(plan[t], r, [])], fp)
    ensures Chained(first, ns) && Carries(ns, Of(plan[t], r))
  {
    Apart(table, plan, fp, t, Active);
    Apart(table, plan, fp, t, r);
    AllFit(table, plan, fp, t);
    assert l == Pick(table[t], Active) && Fits(l, t, Active, [], fp) && Fits(from, t, r, Of(plan[t], r), fp);
    l.MoveFrom(from);
    first, ns := l.TakeAll();
    forall u, s | u in table
      ensures Fits(Pick(table[u], s), u, s, Of(plan[t := With(plan[t], r, [])][u], s), fp)
    {
      assert old(Fits(Pick(table[u], s), u, s, Of(plan[u], s), fp));
    }
  }

  /** The simulator is done with the first slot and drops it; only later times are left. */
  method DropFirst(head: Slot, ghost v: View) returns (next: Slot?, ghost v': View)
    requires Good(head, v)
    ensures Good(next, v') && head.time in v.plan && v'.plan == v.plan - {head.time}
    ensures forall t :: t in v'.plan ==> head.time < t
    ensures if next == null then v'.plan == map[] else next.time in v'.plan && forall t :: t in v'.plan ==> next.time <= t
  {
    ghost var sh := v.shape;
    TailInOrder(sh.slots);
    TailTabled(sh.slots, sh.times, sh.table);
    FilledWithout(sh.table, v.plan, v.fp, sh.times[0]);
    next := head.next;
    v' := View(Shape(sh.slots[1..], sh.times[1..], sh.table - {sh.times[0]}), v.plan - {sh.times[0]}, v.fp);
  }

  function Wider(fp: Footprint, qs: Queues): Footprint {
    fp.(lists := fp.lists + ListsOf(qs))
  }

  /** A slot is added to the table, with empty lists. */
  lemma FilledFurther(table: Table, plan: Plan, t: nat, qs: Queues, fp: Footprint)
    requires Filled(table, plan, fp) && t !in table
    requires forall r :: Holds1(Pick(qs, r), t, r, [])
    ensures Filled(table[t := qs], plan[t := NOTHING], Wider(fp, qs))
  {
    var fp', plan', table' := Wider(fp, qs), plan[t := NOTHING], table[t := qs];
    forall u, r | u in table' ensures Fits(Pick(table'[u], r), u, r, Of(plan'[u], r), fp') {
      if u == t {
        assert Holds1(Pick(qs, r), t, r, []);
      } else {
        assert Fits(Pick(table[u], r), u, r, Of(plan[u], r), fp);
      }
    }
  }

  method AppendTo(ghost table: Table, ghost plan: Plan, ghost fp: Footprint,
                  ghost t: nat, ghost r: Region, l: ActionList, a: Action) returns (ghost fp': Footprint)
    requires Filled(table, plan, fp) && t in table && l == Pick(table[t], r)
    modifies l, l.nodes
    ensures Filled(table, Planned(plan, t, r, a), fp')
    ensures fp'.lists == fp.lists && fresh(fp'.nodes - fp.nodes)
  {
    Apart(table, plan, fp, t, r);
    OfPlanned(plan, t, r, a);
    l.Append(a);
    fp' := fp.(nodes := fp.nodes + set n | n in l.nodes);
    forall u, s | u in table
      ensures Fits(Pick(table[u], s), u, s, Of(Planned(plan, t, r, a)[u], s), fp')
    {
      assert old(Fits(Pick(table[u], s), u, s, Of(plan[u], s), fp));
    }
  }

  lemma OfPlanned(p: Plan, t: nat, r: Region, a: Action)
    requires t in p
    ensures forall u, s :: u in p ==>
              Of(Planned(p, t, r, a)[u], s) == if u == t && s == r then Appended(Of(p[t], r), a) else Of(p[u], s)
  {
  }

  method PurgeSlot(ghost table: Table, ghost plan: Plan, ghost fp: Footprint, qs: Queues, ghost t: nat, blk: nat)
    requires Filled(table, plan, fp) && t in table && qs == table[t]
    modifies fp.lists, fp.nodes
    ensures Filled(table, plan[t := PurgedFive(plan[t], blk)], fp)
  {
    FourPurges(plan, t, blk);
    ghost var p := plan;
    PurgeIn(table, p, fp, t, Active, qs.active, blk);
    p := PurgedAt(p, t, Active, blk);
    PurgeIn(table, p, fp, t, Inactive, qs.zdly, blk);
    p := PurgedAt(p, t, Inactive, blk);
    PurgeIn(table, p, fp, t, Update, qs.nbau, blk);
    p := PurgedAt(p, t, Update, blk);
    PurgeIn(table, p, fp, t, Monitor, qs.mon, blk);
  }

  method PurgeIn(ghost table: Table, ghost plan: Plan, ghost fp: Footprint,
                 ghost t: nat, ghost r: Region, l: ActionList, blk: nat)
    requires Filled(table, plan, fp) && t in table && l == Pick(table[t], r)
    modifies fp.lists, fp.nodes
    ensures Filled(table, PurgedAt(plan, t, r, blk), fp)
  {
    Apart(table, plan, fp, t, r);
    OfPurgedAt(plan, t, r, blk);
    assert Fits(l, t, r, Of(plan[t], r), fp);
    l.Purge(blk);
    forall u, s | u in table
      ensures Fits(Pick(table[u], s), u, s, Of(PurgedAt(plan, t, r, blk)[u], s), fp)
    {
      assert old(Fits(Pick(table[u], s), u, s, Of(plan[u], s), fp));
    }
  }

  lemma OfPurgedAt(p: Plan, t: nat, r: Region, blk: nat)
    requires t in p
    ensures forall u, s :: u in p ==>
              Of(PurgedAt(p, t, r, blk)[u], s) == if u == t && s == r then Purged(Of(p[t], r), blk) else Of(p[u], s)
  {
  }

  /** The slot h becomes a slot for the earlier time t, and a new one what h was. */
  method TakeOver(h: Slot, ghost ss: seq<Slot>, ghost times: seq<nat>, ghost table: Table, t: nat, qs: Queues)
    returns (ts: Slot)
    requires InOrder(h, ss) && Tabled(ss, times, table) && Ascending(times) && t !in times
    modifies h
    ensures fresh(ts) && h.time == t
    ensures InOrder(h, [h] + ([ts] + ss[1..]))
    ensures Tabled([h] + ([ts] + ss[1..]), Inserted(times, 0, t), table[t := qs])
  {
    ts := new Slot(h.time, h.next, h.queues);
    ghost var moved := [ts] + ss[1..];
    Moved(h, ss, times, table, ts);
    h.time, h.next, h.queues := t, ts, qs;
    Prepended(ts, moved, times, table, h);
  }

  function PurgedAt(p: Plan, t: nat, r: Region, blk: nat): Plan
    requires t in p
  {
    p[t := With(p[t], r, Purged(Of(p[t], r), blk))]
  }

  lemma FourPurges(p: Plan, t: nat, blk: nat)
    requires t in p
    ensures var p1 := PurgedAt(p, t, Active, blk);
            var p2 := PurgedAt(p1, t, Inactive, blk);
            var p3 := PurgedAt(p2, t, Update, blk);
            PurgedAt(p3, t, Monitor, blk) == p[t := PurgedFive(p[t], blk)]
  {
  }

  function PurgedPlan(p: Plan, blk: nat): Plan {
    map t | t in p :: PurgedFive(p[t], blk)
  }

  /** The slots of the first k times are purged. */
  ghost predicate HalfPurged(before: Plan, after: Plan, ts: seq<nat>, k: nat, blk: nat) {
    && before.Keys == after.Keys && k <= |ts|
    && forall i :: 0 <= i < |ts| ==>
         ts[i] in before && after[ts[i]] == if i < k then PurgedFive(before[ts[i]], blk) else before[ts[i]]
  }

  lemma HalfPurgedFurther(before: Plan, after: Plan, ts: seq<nat>, k: nat, blk: nat)
    requires Ascending(ts) && k < |ts| && HalfPurged(before, after, ts, k, blk)
    ensures HalfPurged(before, after[ts[k] := PurgedFive(after[ts[k]], blk)], ts, k + 1, blk)
  {
  }

  lemma HalfPurgedEnds(before: Plan, after: Plan, ts: seq<nat>, blk: nat)
    requires HalfPurged(before, after, ts, |ts|, blk) && forall t :: t in before <==> t in ts
    ensures after == PurgedPlan(before, blk)
  {
  }

  /** Different times or regions have different lists, and lists have no nodes in common. */
  lemma Apart(table: Table, plan: Plan, fp: Footprint, t: nat, r: Region)
    requires Filled(table, plan, fp) && t in table
    ensures forall u, s :: u in table && (u, s) != (t, r) ==>
              && Pick(table[u], s) != Pick(table[t], r)
              && forall n :: n in Pick(table[u], s).nodes ==> n !in Pick(table[t], r).nodes
  {
    forall u, s | u in table && (u, s) != (t, r)
      ensures Pick(table[u], s) != Pick(table[t], r)
      ensures forall n :: n in Pick(table[u], s).nodes ==> n !in Pick(table[t], r).nodes
    {
      var l, m := Pick(table[t], r), Pick(table[u], s);
      assert Fits(m, u, s, Of(plan[u], s), fp) && Fits(l, t, r, Of(plan[t], r), fp);
    }
  }

  lemma TailInOrder(ss: seq<Slot>)
    requires ss != [] && InOrder(ss[0], ss)
    ensures InOrder(ss[0].next, ss[1..])
  {
    var tail := ss[1..];
    assert ss[0].next == SlotAt(ss, 1);
    forall i | 0 <= i < |tail| ensures tail[i].next == SlotAt(tail, i + 1) {
      assert tail[i] == ss[i + 1] && ss[i + 1].next == SlotAt(ss, i + 2);
    }
  }

  lemma TailTabled(ss: seq<Slot>, ts: seq<nat>, table: Table)
    requires ss != [] && Tabled(ss, ts, table) && Ascending(ts)
    ensures Tabled(ss[1..], ts[1..], table - {ts[0]}) && Ascending(ts[1..])
    ensures forall t :: t in table - {ts[0]} ==> ts[0] < t
  {
    var tail, later, rest := ss[1..], ts[1..], table - {ts[0]};
    TailTimes(ts);
    forall t ensures t in rest <==> t in later {
      assert t in ts <==> t == ts[0] || t in later;
    }
    forall i | 0 <= i < |tail| ensures tail[i].time == later[i] && tail[i].queues == rest[later[i]] {
      assert tail[i] == ss[i + 1] && ss[i + 1].time == ts[i + 1] && ss[i + 1].queues == table[ts[i + 1]];
    }
  }

  lemma TailTimes(ts: seq<nat>)
    requires ts != [] && Ascending(ts)
    ensures Ascending(ts[1..]) && ts == [ts[0]] + ts[1..]
    ensures forall t :: t in ts[1..] ==> ts[0] < t
  {
  }

  lemma FilledWithout(table: Table, plan: Plan, fp: Footprint, t: nat)
    requires Filled(table, plan, fp)
    ensures Filled(table - {t}, plan - {t}, fp)
  {
    forall u, r | u in table - {t} ensures Fits(Pick((table - {t})[u], r), u, r, Of((plan - {t})[u], r), fp) {
      assert Fits(Pick(table[u], r), u, r, Of(plan[u], r), fp);
    }
  }

  /** A new slot object s is what the first one was. */
  lemma Moved(h: Slot, ss: seq<Slot>, ts: seq<nat>, table: Table, s: Slot)
    requires InOrder(h, ss) && Tabled(ss, ts, table) && Ascending(ts)
    requires s.time == h.time && s.next == h.next && s.queues == h.queues && s != h
    ensures h !in [s] + ss[1..] && InOrder(s, [s] + ss[1..]) && Tabled([s] + ss[1..], ts, table)
  {
    var ss' := [s] + ss[1..];
    forall i | 0 <= i < |ss'|
      ensures ss'[i] != h && ss'[i].next == SlotAt(ss', i + 1)
      ensures ss'[i].time == ts[i] && ss'[i].queues == table[ts[i]]
    {
      assert ss[0].next == SlotAt(ss, 1);
      assert i > 0 ==> ss'[i] == ss[i] && ss[i].time == ts[i] != ts[0] == ss[0].time;
    }
  }

  /** A slot for an earlier time goes first. */
  lemma Prepended(first: Slot, ss: seq<Slot>, ts: seq<nat>, table: Table, h: Slot)
    requires InOrder(first, ss) && Tabled(ss, ts, table) && h.time !in ts && h.next == first
    ensures InOrder(h, [h] + ss) && Tabled([h] + ss, Inserted(ts, 0, h.time), table[h.time := h.queues])
  {
    var ss', ts' := [h] + ss, Inserted(ts, 0, h.time);
    forall u ensures u in ts' <==> u in ts || u == h.time {
      InsertedHas(ts, 0, h.time, u);
    }
    forall i | 0 <= i < |ss'|
      ensures ss'[i].next == SlotAt(ss', i + 1) && ss'[i].time == ts'[i]
      ensures ss'[i].queues == table[h.time := h.queues][ts'[i]]
    {
      assert i > 0 ==> ss'[i] == ss[i - 1] && ts'[i] == ts[i - 1];
    }
  }
}
