/** One process followed through a whole run. Whatever the rest of the design does, the run's
    evaluations of the process's own statements are those of the process alone, on a clock that only
    its own delays and wake-ups move: none is lost, repeated, early or late. */
module Timing {
  import opened Basics
  import opened Actions
  import opened Flat

  /** Who is who in a run: the tasks that only the process evaluates, the tasks that may be
      triggered, and the blocks that may be disabled. */
  datatype Cast = Cast(mine: Task -> bool, guest: Task -> bool, cut: nat -> bool)

  predicate Free(ts: seq<Task>, c: Cast) {
    forall i :: 0 <= i < |ts| ==> !c.mine(ts[i])
  }

  predicate FreeLater(ls: seq<Later>, c: Cast) {
    forall i :: 0 <= i < |ls| ==> !c.mine(ls[i].task)
  }

  predicate Rouses(ts: seq<Trig>, c: Cast) {
    forall i :: 0 <= i < |ts| && ts[i].Rouse? ==> c.guest(ts[i].task) && !c.mine(ts[i].task)
  }

  /** The process is set up by its own statements alone, and as part of the process: nothing of it is
      queued separately. Anything else may be queued anywhere, by whatever statement. */
  predicate Minds<W>(t: Task, e: Effect<W>, c: Cast) {
    && Free(e.zdly, c) && Free(e.nbau, c) && Free(e.mon, c) && Free(e.next, c)
    && FreeLater(e.later, c) && Rouses(e.trig, c)
    && (!c.mine(t) ==> Free(e.now, c))
    && (t.stmt.Disable? && e.disabled.Some? ==> c.cut(e.disabled.value))
  }

  ghost predicate Closed<W(!new)>(eval: Evaluator<W>, c: Cast) {
    forall t: Task, w: W, now: nat :: Minds(t, eval(t, w, now), c)
  }

  // ---- the process alone ----

  /** What the process still has to run, and the time at which it has, or next gets, control; or it
      sleeps since that time. */
  datatype Process = Process(todo: seq<Task>, clock: nat, asleep: bool)

  /** What can happen to a process. */
  datatype Turn<W> =
    | Evaluate(world: W)           // its next statement runs and sees these values of the design
    | Resume(time: nat)            // the event it waits for is raised
    | Admit(guests: seq<Task>)     // triggered statements run before its next block
    | Cut(blk: nat)                // a block is disabled

  predicate Over(p: Process, c: Cast) {
    Free(p.todo, c)
  }

  /** The process after its statement t, already taken out, had effect e. */
  function Continued<W>(t: Task, rest: seq<Task>, clock: nat, e: Effect<W>): Process {
    var purges := t.stmt.Disable? && e.disabled.Some?;
    var made := Fresh([], e.now);
    var todo := if purges then Outside(made, e.disabled.value) + Outside(rest, e.disabled.value) else made + rest;
    match e.outcome
    case Done => Process(todo, clock, false)
    case Pause(d) => Process(todo, clock + d, false)
    case WaitFor(_) => Process(todo, clock, true)
  }

  function Turned<W>(p: Process, eval: Evaluator<W>, u: Turn<W>): Process {
    match u
    case Evaluate(w) => if p.todo == [] then p else Continued(p.todo[0], p.todo[1..], p.clock, eval(p.todo[0], w, p.clock))
    case Resume(t) => Process(p.todo, t, false)
    case Admit(gs) => p.(todo := gs + p.todo)
    case Cut(b) => p.(todo := Outside(p.todo, b))
  }

  predicate MayTake<W>(p: Process, u: Turn<W>, c: Cast) {
    match u
    case Evaluate(_) => !p.asleep && p.todo != []
    case Resume(t) => p.asleep && p.clock <= t
    case Admit(gs) =>
      && gs != [] && !p.asleep && p.todo != [] && IsBlock(p.todo[0].stmt)
      && forall i :: 0 <= i < |gs| ==> c.guest(gs[i]) && !c.mine(gs[i])
    case Cut(b) => c.cut(b)
  }

  datatype Entry = Entry(task: Task, time: nat)

  function Noted<W>(p: Process, u: Turn<W>, c: Cast): seq<Entry> {
    if u.Evaluate? && p.todo != [] && c.mine(p.todo[0]) then [Entry(p.todo[0], p.clock)] else []
  }

  function Alone<W>(p: Process, eval: Evaluator<W>, us: seq<Turn<W>>): Process
    decreases us
  {
    if us == [] then p else Alone(Turned(p, eval, us[0]), eval, us[1..])
  }

  function AloneLog<W>(p: Process, eval: Evaluator<W>, us: seq<Turn<W>>, c: Cast): seq<Entry>
    decreases us
  {
    if us == [] then [] else Noted(p, us[0], c) + AloneLog(Turned(p, eval, us[0]), eval, us[1..], c)
  }

  predicate Lawful<W>(p: Process, eval: Evaluator<W>, us: seq<Turn<W>>, c: Cast)
    decreases us
  {
    us == [] || (MayTake(p, us[0], c) && Lawful(Turned(p, eval, us[0]), eval, us[1..], c))
  }

  lemma {:induction false} AloneConcat<W>(p: Process, eval: Evaluator<W>, us: seq<Turn<W>>, vs: seq<Turn<W>>, c: Cast)
    ensures Alone(p, eval, us + vs) == Alone(Alone(p, eval, us), eval, vs)
    ensures AloneLog(p, eval, us + vs, c) == AloneLog(p, eval, us, c) + AloneLog(Alone(p, eval, us), eval, vs, c)
    ensures Lawful(p, eval, us, c) && Lawful(Alone(p, eval, us), eval, vs, c) ==> Lawful(p, eval, us + vs, c)
    decreases us
  {
    if us == [] {
      assert us + vs == vs;
    } else {
      assert (us + vs)[0] == us[0] && (us + vs)[1..] == us[1..] + vs;
      AloneConcat(Turned(p, eval, us[0]), eval, us[1..], vs, c);
    }
  }

  /** How long the process's own statements, and those it admits, hold it up. */
  function Waited<W>(p: Process, eval: Evaluator<W>, us: seq<Turn<W>>): nat
    decreases us
  {
    if us == [] then 0
    else
      var held := if us[0].Evaluate? && p.todo != [] then Hold(eval(p.todo[0], us[0].world, p.clock).outcome) else 0;
      held + Waited(Turned(p, eval, us[0]), eval, us[1..])
  }

  function Hold(o: Outcome): nat {
    if o.Pause? then o.delay else 0
  }

  predicate NeverResumes<W>(us: seq<Turn<W>>) {
    forall i :: 0 <= i < |us| ==> !us[i].Resume?
  }

  /** The clock of a process that waits for no event is its start time plus the delays it met. */
  lemma {:induction false} ClockIsDelays<W>(p: Process, eval: Evaluator<W>, us: seq<Turn<W>>)
    requires NeverResumes(us)
    ensures Alone(p, eval, us).clock == p.clock + Waited(p, eval, us)
    decreases us
  {
    if us != [] {
      assert !us[0].Resume?;
      ClockIsDelays(Turned(p, eval, us[0]), eval, us[1..]);
    }
  }

  // ---- the process within the whole design ----

  /** The task that a move evaluates, if it evaluates one. */
  function Evaluated<W>(f: State<W>, m: Move): Option<Task> {
    if m.Take? && !f.stopped && !Finished(f) && !Splices(f) then Head(f) else None
  }

  function Seen<W>(f: State<W>, m: Move, c: Cast): seq<Entry> {
    var t := Evaluated(f, m);
    if t.Some? && c.mine(t.value) then [Entry(t.value, f.time)] else []
  }

  /** The process's evaluations in a play, each with its time. */
  function Log<W>(f: State<W>, eval: Evaluator<W>, ms: seq<Move>, c: Cast): seq<Entry>
    decreases ms
  {
    if ms == [] then [] else Seen(f, ms[0], c) + Log(Played(f, eval, ms[0]), eval, ms[1..], c)
  }

  /** Whether the process is found in one place of the state, with all it has left, or in two. */
  datatype Spot = Absent | There(todo: seq<Task>) | Twice

  function Both(a: Spot, b: Spot): Spot {
    if a.Absent? then b else if b.Absent? then a else Twice
  }

  function Spotted(ts: seq<Task>, c: Cast): Spot {
    if Free(ts, c) then Absent else There(ts)
  }

  function SpottedItem(x: Item, c: Cast): Spot {
    match x
    case One(t) => Spotted([t], c)
    case Proc(rest) => Spotted(rest, c)
  }

  function SpottedIn(q: seq<Item>, c: Cast): Spot {
    if q == [] then Absent else Both(SpottedItem(q[0], c), SpottedIn(q[1..], c))
  }

  function Sleeping(ws: seq<Waiter<Item>>, c: Cast): Spot {
    if ws == [] then Absent else Both(SpottedItem(ws[0].what, c), Sleeping(ws[1..], c))
  }

  /** A statement of the process stands alone in a list only at its start, as a block. */
  predicate Fit(x: Item, c: Cast) {
    x.One? && c.mine(x.task) ==> IsBlock(x.task.stmt)
  }

  predicate AllFit(q: seq<Item>, c: Cast) {
    forall i :: 0 <= i < |q| ==> Fit(q[i], c)
  }

  predicate Guests(q: seq<Item>, c: Cast) {
    forall i :: 0 <= i < |q| && q[i].One? ==> c.guest(q[i].task) && !c.mine(q[i].task)
  }

  predicate AllProcs(ws: seq<Waiter<Item>>) {
    forall i :: 0 <= i < |ws| ==> ws[i].what.Proc?
  }

  predicate AllQueuesFit(m: map<nat, seq<Item>>, c: Cast) {
    forall t :: t in m ==> AllFit(m[t], c)
  }

  predicate Tidy<W>(f: State<W>, c: Cast) {
    && AllFit(f.ready, c) && AllFit(f.zdly, c) && AllQueuesFit(f.future, c)
    && Guests(f.trig, c) && AllProcs(f.waiting)
    && SpottedIn(f.nbau, c) == Absent && AllFit(f.nbau, c)
    && SpottedIn(f.mon, c) == Absent && AllFit(f.mon, c)
    && SpottedIn(f.next, c) == Absent && AllFit(f.next, c)
  }

  /** The process among what is to run at the present time. */
  function Here<W>(f: State<W>, c: Cast): Spot {
    Both(Both(Spotted(f.running, c), SpottedIn(f.ready, c)), Both(SpottedIn(f.trig, c), SpottedIn(f.zdly, c)))
  }

  predicate Never(m: map<nat, seq<Item>>, c: Cast) {
    forall t :: t in m ==> SpottedIn(m[t], c) == Absent
  }

  predicate OnlyAt(m: map<nat, seq<Item>>, t: nat, todo: seq<Task>, c: Cast) {
    t in m && SpottedIn(m[t], c) == There(todo) && forall u :: u in m && u != t ==> SpottedIn(m[u], c) == Absent
  }

  predicate Nowhere<W>(f: State<W>, c: Cast) {
    Here(f, c) == Absent && Never(f.future, c) && Sleeping(f.waiting, c) == Absent
  }

  predicate AtHand<W>(f: State<W>, p: Process, c: Cast) {
    p.clock == f.time && Here(f, c) == There(p.todo) && Never(f.future, c) && Sleeping(f.waiting, c) == Absent
  }

  predicate Delayed<W>(f: State<W>, p: Process, c: Cast) {
    f.time < p.clock && Here(f, c) == Absent && OnlyAt(f.future, p.clock, p.todo, c) && Sleeping(f.waiting, c) == Absent
  }

  predicate Dormant<W>(f: State<W>, p: Process, c: Cast) {
    p.clock <= f.time && Here(f, c) == Absent && Never(f.future, c) && Sleeping(f.waiting, c) == There(p.todo)
  }

  /** The process is in exactly one place: among the present work when its clock is the present, in
      the slot of its clock when that is later, with its event when it sleeps. */
  predicate Located<W>(f: State<W>, p: Process, c: Cast) {
    && Tidy(f, c)
    && if Over(p, c) then Nowhere(f, c)
       else if p.asleep then Dormant(f, p, c)
       else AtHand(f, p, c) || Delayed(f, p, c)
  }

  /** Another state in which the process is where it was. */
  lemma Unmoved<W>(f: State<W>, g: State<W>, p: Process, c: Cast)
    requires Located(f, p, c) && Tidy(g, c) && SamePlace(f, g, c)
    ensures Located(g, p, c)
  {
  }

  predicate SamePlace<W>(f: State<W>, g: State<W>, c: Cast) {
    && g.time == f.time && Here(g, c) == Here(f, c)
    && Sleeping(g.waiting, c) == Sleeping(f.waiting, c) && SameSpots(f.future, g.future, c)
  }

  // ---- lists ----

  lemma {:induction false} SpottedConcat(p: seq<Item>, q: seq<Item>, c: Cast)
    ensures SpottedIn(p + q, c) == Both(SpottedIn(p, c), SpottedIn(q, c))
  {
    if p == [] {
      assert p + q == q;
    } else {
      assert (p + q)[0] == p[0] && (p + q)[1..] == p[1..] + q;
      SpottedConcat(p[1..], q, c);
    }
  }

  lemma SpottedOne(x: Item, c: Cast)
    ensures SpottedIn([x], c) == SpottedItem(x, c)
  {
    assert [x][1..] == [];
  }

  lemma {:induction false} SleepingAdd(ws: seq<Waiter<Item>>, w: Waiter<Item>, c: Cast)
    ensures Sleeping(ws + [w], c) == Both(Sleeping(ws, c), SpottedItem(w.what, c))
  {
    if ws == [] {
      assert ws + [w] == [w] && [w][1..] == [];
    } else {
      assert (ws + [w])[0] == ws[0] && (ws + [w])[1..] == ws[1..] + [w];
      SleepingAdd(ws[1..], w, c);
    }
  }

  lemma SpottedFirst(x: Item, q: seq<Item>, c: Cast)
    ensures SpottedIn([x] + q, c) == Both(SpottedItem(x, c), SpottedIn(q, c))
  {
    assert ([x] + q)[1..] == q;
  }

  lemma SleepingFirst(w: Waiter<Item>, ws: seq<Waiter<Item>>, c: Cast)
    ensures Sleeping([w] + ws, c) == Both(SpottedItem(w.what, c), Sleeping(ws, c))
  {
    assert ([w] + ws)[1..] == ws;
  }

  lemma PutKeeps(q: seq<Item>, t: Task, c: Cast)
    requires !c.mine(t)
    ensures SpottedIn(Put(q, t), c) == SpottedIn(q, c)
    ensures AllFit(q, c) ==> AllFit(Put(q, t), c)
    ensures Guests(q, c) && c.guest(t) ==> Guests(Put(q, t), c)
  {
    SpottedConcat(q, [One(t)], c);
    SpottedOne(One(t), c);
  }

  lemma {:induction false} PutAllKeeps(q: seq<Item>, ts: seq<Task>, c: Cast)
    requires Free(ts, c) && AllFit(q, c)
    ensures SpottedIn(PutAll(q, ts), c) == SpottedIn(q, c) && AllFit(PutAll(q, ts), c)
    decreases ts
  {
    if ts != [] {
      PutKeeps(q, ts[0], c);
      PutAllKeeps(Put(q, ts[0]), ts[1..], c);
    }
  }

  predicate SameSpots(m: map<nat, seq<Item>>, n: map<nat, seq<Item>>, c: Cast) {
    && (forall t :: t in m ==> t in n)
    && forall t :: t in n ==> SpottedIn(n[t], c) == SpottedIn(ListAt(m, t), c)
  }

  lemma {:induction false} ScheduleKeeps(m: map<nat, seq<Item>>, now: nat, ls: seq<Later>, c: Cast)
    requires FreeLater(ls, c) && AllQueuesFit(m, c)
    ensures AllQueuesFit(Schedule(m, now, ls), c) && SameSpots(m, Schedule(m, now, ls), c)
    decreases ls
  {
    if ls != [] {
      var t := now + ls[0].delay;
      var n := m[t := Put(ListAt(m, t), ls[0].task)];
      PutKeeps(ListAt(m, t), ls[0].task, c);
      ScheduleKeeps(n, now, ls[1..], c);
    }
  }

  lemma SameIsNever(m: map<nat, seq<Item>>, n: map<nat, seq<Item>>, c: Cast)
    requires SameSpots(m, n, c)
    ensures Never(m, c) ==> Never(n, c)
    ensures forall t, todo :: OnlyAt(m, t, todo, c) ==> OnlyAt(n, t, todo, c)
  {
  }

  // ---- events ----

  lemma {:induction false} WakingMoves(ws: seq<Waiter<Item>>, ev: nat, c: Cast)
    requires AllProcs(ws) && Sleeping(ws, c) != Twice
    ensures AllProcs(Asleep(ws, ev)) && Guests(Woken(ws, ev), c)
    ensures || (SpottedIn(Woken(ws, ev), c) == Absent && Sleeping(Asleep(ws, ev), c) == Sleeping(ws, c))
            || (SpottedIn(Woken(ws, ev), c) == Sleeping(ws, c) && Sleeping(Asleep(ws, ev), c) == Absent)
  {
    if ws != [] {
      WakingMoves(ws[1..], ev, c);
      var up, on := Woken(ws[1..], ev), Asleep(ws[1..], ev);
      assert [] + up == up && [] + on == on;
      SpottedFirst(ws[0].what, up, c);
      SleepingFirst(ws[0], on, c);
    }
  }

  /** Triggering leaves the process where it is, or wakes it. */
  lemma {:induction false} RaisingMoves(q: seq<Item>, ws: seq<Waiter<Item>>, ts: seq<Trig>, c: Cast)
    requires Guests(q, c) && AllProcs(ws) && Rouses(ts, c)
    requires Sleeping(ws, c) != Twice && (Sleeping(ws, c) == Absent || SpottedIn(q, c) == Absent)
    ensures Guests(RaisedTrig(q, ws, ts), c) && AllProcs(StillAsleep(ws, ts))
    ensures || (SpottedIn(RaisedTrig(q, ws, ts), c) == SpottedIn(q, c) && Sleeping(StillAsleep(ws, ts), c) == Sleeping(ws, c))
            || (SpottedIn(q, c) == Absent && SpottedIn(RaisedTrig(q, ws, ts), c) == Sleeping(ws, c) && Sleeping(StillAsleep(ws, ts), c) == Absent)
    decreases ts
  {
    if ts != [] {
      match ts[0]
      case Rouse(t) =>
        PutKeeps(q, t, c);
        RaisingMoves(Put(q, t), ws, ts[1..], c);
      case Wake(ev) =>
        WakingMoves(ws, ev, c);
        SpottedConcat(q, Woken(ws, ev), c);
        RaisingMoves(q + Woken(ws, ev), Asleep(ws, ev), ts[1..], c);
    }
  }

  // ---- what an evaluation appends ----

  lemma AbsorbTidy<W>(f: State<W>, t: Task, e: Effect<W>, c: Cast)
    requires Tidy(f, c) && Minds(t, e, c)
    requires Sleeping(f.waiting, c) != Twice && (Sleeping(f.waiting, c) == Absent || Here(f, c) == Absent)
    ensures Tidy(Absorb(f, e), c)
    ensures SameSpots(f.future, Absorb(f, e).future, c)
    ensures || (Here(Absorb(f, e), c) == Here(f, c) && Sleeping(Absorb(f, e).waiting, c) == Sleeping(f.waiting, c))
            || (Here(f, c) == Absent && Here(Absorb(f, e), c) == Sleeping(f.waiting, c) && Sleeping(Absorb(f, e).waiting, c) == Absent)
  {
    PutAllKeeps(f.zdly, e.zdly, c);
    PutAllKeeps(f.nbau, e.nbau, c);
    PutAllKeeps(f.mon, e.mon, c);
    PutAllKeeps(f.next, e.next, c);
    ScheduleKeeps(f.future, f.time, e.later, c);
    RaisingMoves(f.trig, f.waiting, e.trig, c);
  }

  /** What a statement appends leaves the process alone, or wakes it. */
  lemma AbsorbHolds<W>(f: State<W>, t: Task, e: Effect<W>, eval: Evaluator<W>, p: Process, c: Cast) returns (us: seq<Turn<W>>)
    requires Located(f, p, c) && Minds(t, e, c)
    ensures Lawful(p, eval, us, c) && AloneLog(p, eval, us, c) == []
    ensures Located(Absorb(f, e), Alone(p, eval, us), c)
    ensures Over(p, c) ==> us == []
  {
    AbsorbTidy(f, t, e, c);
    SameIsNever(f.future, Absorb(f, e).future, c);
    if !Over(p, c) && p.asleep && Sleeping(Absorb(f, e).waiting, c) == Absent {
      us := [Resume(f.time)];
      OneTurn(p, eval, us[0], c);
    } else {
      us := [];
    }
  }

  lemma OneTurn<W>(p: Process, eval: Evaluator<W>, u: Turn<W>, c: Cast)
    ensures Alone(p, eval, [u]) == Turned(p, eval, u)
    ensures AloneLog(p, eval, [u], c) == Noted(p, u, c)
    ensures MayTake(p, u, c) ==> Lawful(p, eval, [u], c)
  {
    assert [u][1..] == [];
    assert Alone(p, eval, [u]) == Alone(Turned(p, eval, u), eval, [u][1..]);
    assert AloneLog(p, eval, [u], c) == Noted(p, u, c) + AloneLog(Turned(p, eval, u), eval, [u][1..], c);
  }

  // ---- disabling ----

  /** What the purge leaves of the process. */
  function Trimmed(a: Spot, blk: nat, c: Cast): Spot {
    if a.There? then Spotted(Outside(a.todo, blk), c) else a
  }

  lemma {:induction false} OutsideFree(ts: seq<Task>, blk: nat, c: Cast)
    requires Free(ts, c)
    ensures Free(Outside(ts, blk), c)
  {
    if ts != [] {
      OutsideFree(ts[1..], blk, c);
    }
  }

  lemma KeptItemSpot(x: Item, blk: nat, c: Cast)
    ensures SpottedIn(KeptItem(x, blk), c) == Trimmed(SpottedItem(x, c), blk, c)
    ensures Fit(x, c) ==> AllFit(KeptItem(x, blk), c)
  {
    var ts := if x.One? then [x.task] else x.rest;
    assert x.One? ==> ts[1..] == [] && Outside(ts, blk) == (if blk in x.task.ctx then [] else ts);
    if Free(ts, c) {
      OutsideFree(ts, blk, c);
    }
    if KeptItem(x, blk) != [] {
      SpottedOne(KeptItem(x, blk)[0], c);
      assert KeptItem(x, blk) == [KeptItem(x, blk)[0]];
    }
  }

  lemma {:induction false} KeptSpots(q: seq<Item>, blk: nat, c: Cast)
    requires AllFit(q, c) && SpottedIn(q, c) != Twice
    ensures SpottedIn(Kept(q, blk), c) == Trimmed(SpottedIn(q, c), blk, c) && AllFit(Kept(q, blk), c)
  {
    if q != [] {
      KeptItemSpot(q[0], blk, c);
      KeptSpots(q[1..], blk, c);
      SpottedConcat(KeptItem(q[0], blk), Kept(q[1..], blk), c);
    }
  }

  lemma {:induction false} KeptSleeping(ws: seq<Waiter<Item>>, blk: nat, c: Cast)
    requires AllProcs(ws) && Sleeping(ws, c) != Twice
    ensures Sleeping(KeptWaiters(ws, blk), c) == Trimmed(Sleeping(ws, c), blk, c) && AllProcs(KeptWaiters(ws, blk))
  {
    if ws != [] {
      var k := KeptItem(ws[0].what, blk);
      KeptItemSpot(ws[0].what, blk, c);
      KeptSleeping(ws[1..], blk, c);
      var on := KeptWaiters(ws[1..], blk);
      if k == [] {
        assert [] + on == on;
      } else {
        assert k == [k[0]];
        SpottedOne(k[0], c);
        SleepingFirst(Waiter(ws[0].event, k[0]), on, c);
      }
    }
  }

  lemma DisabledTidy<W>(f: State<W>, blk: nat, c: Cast)
    requires Tidy(f, c) && Here(f, c) != Twice && Sleeping(f.waiting, c) != Twice
    requires forall t :: t in f.future ==> SpottedIn(f.future[t], c) != Twice
    ensures Tidy(Disabled(f, blk), c)
    ensures SpottedIn(Disabled(f, blk).ready, c) == Trimmed(SpottedIn(f.ready, c), blk, c)
    ensures SpottedIn(Disabled(f, blk).zdly, c) == Trimmed(SpottedIn(f.zdly, c), blk, c)
    ensures Sleeping(Disabled(f, blk).waiting, c) == Trimmed(Sleeping(f.waiting, c), blk, c)
    ensures TrimmedQueues(f.future, Disabled(f, blk).future, blk, c)
  {
    KeptSpots(f.ready, blk, c);
    KeptSpots(f.zdly, blk, c);
    KeptSpots(f.nbau, blk, c);
    KeptSpots(f.mon, blk, c);
    KeptSleeping(f.waiting, blk, c);
    forall t | t in f.future
      ensures AllFit(Disabled(f, blk).future[t], c)
      ensures SpottedIn(Disabled(f, blk).future[t], c) == Trimmed(SpottedIn(f.future[t], c), blk, c)
    {
      KeptSpots(f.future[t], blk, c);
    }
  }

  predicate TrimmedQueues(m: map<nat, seq<Item>>, n: map<nat, seq<Item>>, blk: nat, c: Cast) {
    n.Keys == m.Keys && forall t :: t in n ==> SpottedIn(n[t], c) == Trimmed(SpottedIn(m[t], c), blk, c)
  }

  lemma DisabledHere<W>(f: State<W>, blk: nat, c: Cast)
    requires Tidy(f, c) && Here(f, c) != Twice && Sleeping(f.waiting, c) != Twice && f.running == []
    requires forall t :: t in f.future ==> SpottedIn(f.future[t], c) != Twice
    ensures SpottedIn(f.trig, c) == Absent ==> Here(Disabled(f, blk), c) == Trimmed(Here(f, c), blk, c)
    ensures SpottedIn(f.trig, c) != Absent ==> Here(Disabled(f, blk), c) == Here(f, c)
  {
    DisabledTidy(f, blk, c);
  }

  lemma TrimmedHolds<W>(f: State<W>, g: State<W>, p: Process, blk: nat, c: Cast)
    requires Located(f, p, c) && !Over(p, c) && Tidy(g, c) && g.time == f.time
    requires Here(g, c) == Trimmed(Here(f, c), blk, c)
    requires Sleeping(g.waiting, c) == Trimmed(Sleeping(f.waiting, c), blk, c)
    requires TrimmedQueues(f.future, g.future, blk, c)
    ensures Located(g, p.(todo := Outside(p.todo, blk)), c)
  {
    var q := p.(todo := Outside(p.todo, blk));
    if Delayed(f, p, c) {
      assert SpottedIn(g.future[p.clock], c) == Spotted(q.todo, c);
    } else {
      assert Never(g.future, c);
    }
  }

  /** A process that is over, or just woken, is not with an event or in a later slot. */
  lemma OverOrWoken<W>(f: State<W>, p: Process, c: Cast)
    requires Located(f, p, c) && (Over(p, c) || SpottedIn(f.trig, c) != Absent)
    ensures Never(f.future, c) && Sleeping(f.waiting, c) == Absent
    ensures Here(f, c) != Twice && (Here(f, c) == Absent || SpottedIn(f.trig, c) != Absent)
  {
  }

  lemma DisabledStays<W>(f: State<W>, blk: nat, c: Cast)
    requires Tidy(f, c) && f.running == [] && Never(f.future, c) && Sleeping(f.waiting, c) == Absent
    requires Here(f, c) != Twice && (Here(f, c) == Absent || SpottedIn(f.trig, c) != Absent)
    ensures SamePlace(f, Disabled(f, blk), c)
  {
    DisabledTidy(f, blk, c);
    DisabledHere(f, blk, c);
    assert SameSpots(f.future, Disabled(f, blk).future, c);
  }

  /** A disabled block is cut out of the process, wherever the process is, but for a process that has
      just been woken: the triggered list is not purged. */
  lemma DisabledHolds<W>(f: State<W>, blk: nat, eval: Evaluator<W>, p: Process, c: Cast) returns (us: seq<Turn<W>>)
    requires Located(f, p, c) && f.running == [] && c.cut(blk)
    ensures Lawful(p, eval, us, c) && AloneLog(p, eval, us, c) == []
    ensures Located(Disabled(f, blk), Alone(p, eval, us), c)
    ensures Over(p, c) ==> us == []
  {
    LocatedOnce(f, p, c);
    DisabledTidy(f, blk, c);
    if Over(p, c) || SpottedIn(f.trig, c) != Absent {
      us := [];
      OverOrWoken(f, p, c);
      DisabledStays(f, blk, c);
      Unmoved(f, Disabled(f, blk), p, c);
    } else {
      us := [Cut(blk)];
      OneTurn(p, eval, us[0], c);
      DisabledHere(f, blk, c);
      TrimmedHolds(f, Disabled(f, blk), p, blk, c);
    }
  }

  lemma LocatedOnce<W>(f: State<W>, p: Process, c: Cast)
    requires Located(f, p, c)
    ensures Here(f, c) != Twice && Sleeping(f.waiting, c) != Twice
    ensures forall t :: t in f.future ==> SpottedIn(f.future[t], c) != Twice
  {
  }

  // ---- putting the process away ----

  lemma AppendedFits(q: seq<Item>, ts: seq<Task>, c: Cast)
    requires AllFit(q, c)
    ensures AllFit(q + [Proc(ts)], c) && SpottedIn(q + [Proc(ts)], c) == Both(SpottedIn(q, c), Spotted(ts, c))
  {
    SpottedConcat(q, [Proc(ts)], c);
    SpottedOne(Proc(ts), c);
  }

  /** The process keeps control or goes to the end of the zero-delay list. */
  lemma ParkHere<W>(f: State<W>, ts: seq<Task>, o: Outcome, residue: bool, c: Cast)
    requires Tidy(f, c) && f.running == [] && (o.Done? || o == Pause(0))
    ensures Tidy(Parked(f.(running := ts), o, residue), c)
    ensures Here(Parked(f.(running := ts), o, residue), c) == Both(Here(f, c), Spotted(ts, c))
    ensures Free(ts, c) ==> SamePlace(f, Parked(f.(running := ts), o, residue), c)
  {
    AppendedFits(f.zdly, ts, c);
  }

  /** The process goes to the end of the slot of its target time. */
  lemma ParkLater<W>(f: State<W>, ts: seq<Task>, d: pos, residue: bool, c: Cast)
    requires Tidy(f, c) && f.running == []
    ensures var g, t := Parked(f.(running := ts), Pause(d), residue), f.time + d;
      && Tidy(g, c) && Here(g, c) == Here(f, c) && g.time == f.time && g.waiting == f.waiting
      && SpottedIn(ListAt(g.future, t), c) == Both(SpottedIn(ListAt(f.future, t), c), Spotted(ts, c))
      && (forall u :: u in f.future ==> u in g.future)
      && (forall u :: u in g.future && u != t ==> u in f.future && g.future[u] == f.future[u])
      && (Free(ts, c) ==> SamePlace(f, g, c))
  {
    AppendedFits(ListAt(f.future, f.time + d), ts, c);
  }

  /** The process waits for an event, behind those that wait already. */
  lemma ParkAsleep<W>(f: State<W>, ts: seq<Task>, ev: nat, residue: bool, c: Cast)
    requires Tidy(f, c) && f.running == []
    ensures var g := Parked(f.(running := ts), WaitFor(ev), residue);
      && Tidy(g, c) && Here(g, c) == Here(f, c) && g.time == f.time && g.future == f.future
      && Sleeping(g.waiting, c) == Both(Sleeping(f.waiting, c), Spotted(ts, c))
      && (Free(ts, c) ==> SamePlace(f, g, c))
  {
    SleepingAdd(f.waiting, Waiter(ev, Proc(ts)), c);
  }

  lemma ParkFree<W>(f: State<W>, ts: seq<Task>, o: Outcome, residue: bool, c: Cast)
    requires Tidy(f, c) && f.running == [] && Free(ts, c)
    ensures var g := Parked(f.(running := ts), o, residue);
      Tidy(g, c) && SamePlace(f, g, c)
  {
    if o.Pause? && o.delay != 0 {
      ParkLater(f, ts, o.delay, residue, c);
    } else if o.WaitFor? {
      ParkAsleep(f, ts, o.event, residue, c);
    } else {
      ParkHere(f, ts, o, residue, c);
    }
  }

  /** A process that is not followed may go anywhere. */
  lemma ParkOther<W>(f: State<W>, ts: seq<Task>, o: Outcome, residue: bool, p: Process, c: Cast)
    requires Located(f, p, c) && f.running == [] && Free(ts, c)
    ensures Located(Parked(f.(running := ts), o, residue), p, c)
  {
    ParkFree(f, ts, o, residue, c);
    Unmoved(f, Parked(f.(running := ts), o, residue), p, c);
  }

  /** The process that is followed goes where its clock says. */
  lemma ParkOwn<W>(f: State<W>, ts: seq<Task>, o: Outcome, residue: bool, c: Cast)
    requires Tidy(f, c) && Nowhere(f, c) && f.running == []
    ensures Located(Parked(f.(running := ts), o, residue),
                    Process(ts, if o.Pause? then f.time + o.delay else f.time, o.WaitFor?), c)
  {
    if Free(ts, c) {
      ParkFree(f, ts, o, residue, c);
    } else if o.Pause? && o.delay != 0 {
      ParkLater(f, ts, o.delay, residue, c);
    } else if o.WaitFor? {
      ParkAsleep(f, ts, o.event, residue, c);
    } else {
      ParkHere(f, ts, o, residue, c);
    }
  }

  // ---- one evaluation ----

  /** The state after what an evaluation of t appends, and disables. */
  function Settled<W>(f: State<W>, t: Task, e: Effect<W>): State<W> {
    if t.stmt.Disable? && e.disabled.Some? then Disabled(Absorb(f, e), e.disabled.value) else Absorb(f, e)
  }

  lemma ExecInProcess<W>(f: State<W>, t: Task, eval: Evaluator<W>, residue: bool)
    ensures var e := eval(t, f.world, f.time);
      !e.stop ==>
        Exec(f, t, true, eval, residue)
          == Parked(Settled(f.(running := []), t, e).(running := Continued(t, f.running, f.time, e).todo), e.outcome, residue)
  {
  }

  lemma ExecAlone<W>(f: State<W>, t: Task, eval: Evaluator<W>, residue: bool)
    requires f.running == []
    ensures var e := eval(t, f.world, f.time); var todo := Continued(t, [], f.time, e).todo;
      !e.stop ==>
        Exec(f, t, false, eval, residue)
          == if IsBlock(t.stmt) && todo != [] then Exec(f, t, true, eval, residue)
             else Settled(f, t, e).(ready := Ones(todo) + Settled(f, t, e).ready)
  {
  }

  lemma SettledHolds<W>(f: State<W>, t: Task, e: Effect<W>, eval: Evaluator<W>, p: Process, c: Cast) returns (us: seq<Turn<W>>)
    requires Located(f, p, c) && f.running == [] && Minds(t, e, c)
    ensures Lawful(p, eval, us, c) && AloneLog(p, eval, us, c) == []
    ensures Located(Settled(f, t, e), Alone(p, eval, us), c)
    ensures Over(p, c) ==> us == []
  {
    us := AbsorbHolds(f, t, e, eval, p, c);
    if t.stmt.Disable? && e.disabled.Some? {
      var vs := DisabledHolds(Absorb(f, e), e.disabled.value, eval, Alone(p, eval, us), c);
      AloneConcat(p, eval, us, vs, c);
      us := us + vs;
    }
  }

  lemma {:induction false} FreshFree(acc: seq<Task>, ts: seq<Task>, c: Cast)
    requires Free(acc, c) && Free(ts, c)
    ensures Free(Fresh(acc, ts), c)
    decreases ts
  {
    if ts != [] {
      FreshFree(acc, ts[1..], c);
      FreshFree(acc + [ts[0]], ts[1..], c);
    }
  }

  lemma ContinuedFree<W>(t: Task, rest: seq<Task>, clock: nat, e: Effect<W>, c: Cast)
    requires Free(e.now, c) && Free(rest, c)
    ensures Free(Continued(t, rest, clock, e).todo, c)
  {
    FreshFree([], e.now, c);
    if e.disabled.Some? {
      OutsideFree(rest, e.disabled.value, c);
      OutsideFree(Fresh([], e.now), e.disabled.value, c);
    }
  }

  lemma {:induction false} OnesFree(ts: seq<Task>, c: Cast)
    requires Free(ts, c)
    ensures SpottedIn(Ones(ts), c) == Absent && AllFit(Ones(ts), c)
  {
    if ts != [] {
      assert Ones(ts)[1..] == Ones(ts[1..]);
      OnesFree(ts[1..], c);
    }
  }

  /** A statement that is not the process's own is evaluated, outside the process. */
  lemma OtherExec<W(!new)>(f: State<W>, t: Task, inProcess: bool, eval: Evaluator<W>, residue: bool, p: Process, c: Cast) returns (us: seq<Turn<W>>)
    requires Closed(eval, c) && Located(f.(running := []), p, c) && Free(f.running, c) && !c.mine(t)
    requires inProcess || f.running == []
    ensures Lawful(p, eval, us, c) && AloneLog(p, eval, us, c) == []
    ensures Exec(f, t, inProcess, eval, residue).stopped || Located(Exec(f, t, inProcess, eval, residue), Alone(p, eval, us), c)
  {
    var e, f0 := eval(t, f.world, f.time), f.(running := []);
    assert Minds(t, e, c);
    us := SettledHolds(f0, t, e, eval, p, c);
    if !e.stop {
      var g, q, todo := Settled(f0, t, e), Alone(p, eval, us), Continued(t, f.running, f.time, e).todo;
      ContinuedFree(t, f.running, f.time, e, c);
      ExecInProcess(f, t, eval, residue);
      ParkOther(g, todo, e.outcome, residue, q, c);
      if !inProcess {
        ExecAlone(f, t, eval, residue);
        OnesFree(todo, c);
        SpottedConcat(Ones(todo), g.ready, c);
        Unmoved(g, g.(ready := Ones(todo) + g.ready), q, c);
      }
    }
  }

  /** The process has control, and its next statement is evaluated. */
  lemma OwnExec<W(!new)>(f: State<W>, t: Task, eval: Evaluator<W>, residue: bool, c: Cast)
    requires Closed(eval, c) && Tidy(f.(running := []), c) && Nowhere(f.(running := []), c)
    ensures Exec(f, t, true, eval, residue).stopped ||
            Located(Exec(f, t, true, eval, residue), Continued(t, f.running, f.time, eval(t, f.world, f.time)), c)
  {
    var e := eval(t, f.world, f.time);
    var g := OwnSettled(f.(running := []), t, eval, c);
    var todo := Continued(t, f.running, f.time, e).todo;
    ExecInProcess(f, t, eval, residue);
    if !e.stop {
      ParkOwn(g, todo, e.outcome, residue, c);
    }
  }

  /** What the process's statement appends and disables does not put the process anywhere. */
  lemma OwnSettled<W(!new)>(f: State<W>, t: Task, eval: Evaluator<W>, c: Cast) returns (g: State<W>)
    requires Closed(eval, c) && Tidy(f, c) && Nowhere(f, c) && f.running == []
    ensures g == Settled(f, t, eval(t, f.world, f.time)) && Tidy(g, c) && Nowhere(g, c)
    ensures g.running == [] && g.time == f.time
  {
    var e, over := eval(t, f.world, f.time), Process([], f.time, false);
    assert Minds(t, e, c);
    var us := SettledHolds(f, t, e, eval, over, c);
    g := Settled(f, t, e);
  }

  /** The process starts: its block is evaluated. */
  lemma OwnStart<W(!new)>(f: State<W>, t: Task, eval: Evaluator<W>, residue: bool, c: Cast)
    requires Closed(eval, c) && Tidy(f, c) && Nowhere(f, c) && f.running == [] && IsBlock(t.stmt)
    ensures Exec(f, t, false, eval, residue).stopped ||
            Located(Exec(f, t, false, eval, residue), Continued(t, [], f.time, eval(t, f.world, f.time)), c)
  {
    assert f.(running := []) == f;
    ExecAlone(f, t, eval, residue);
    if Continued(t, [], f.time, eval(t, f.world, f.time)).todo != [] {
      OwnExec(f, t, eval, residue, c);
    } else {
      var g := OwnSettled(f, t, eval, c);
      assert Ones([]) + g.ready == g.ready;
    }
  }

  // ---- one move ----

  lemma {:induction false} LeadingGuests(q: seq<Item>, c: Cast)
    requires Guests(q, c)
    ensures Guests(Trailing(q), c) && SpottedIn(Trailing(q), c) == SpottedIn(q, c)
    ensures forall i :: 0 <= i < |Leading(q)| ==> c.guest(Leading(q)[i]) && !c.mine(Leading(q)[i])
  {
    if q != [] && q[0].One? {
      LeadingGuests(q[1..], c);
    }
  }

  /** Triggered statements go first when the process, or another one, is about to start a block. */
  lemma SpliceHolds<W>(f: State<W>, eval: Evaluator<W>, p: Process, c: Cast) returns (us: seq<Turn<W>>)
    requires Located(f, p, c) && Splices(f)
    ensures Lawful(p, eval, us, c) && AloneLog(p, eval, us, c) == []
    ensures Located(f.(running := Leading(f.trig) + f.running, trig := Trailing(f.trig)), Alone(p, eval, us), c)
  {
    var g := f.(running := Leading(f.trig) + f.running, trig := Trailing(f.trig));
    LeadingGuests(f.trig, c);
    if Free(f.running, c) {
      us := [];
      Unmoved(f, g, p, c);
    } else {
      us := [Admit(Leading(f.trig))];
      OneTurn(p, eval, us[0], c);
      AddedFree(Leading(f.trig), f.running, c);
    }
  }

  lemma AddedFree(ts: seq<Task>, us: seq<Task>, c: Cast)
    requires Free(ts, c)
    ensures Free(ts + us, c) == Free(us, c)
  {
    assert forall i :: 0 <= i < |us| ==> (ts + us)[|ts| + i] == us[i];
  }

  lemma StepHolds<W(!new)>(f: State<W>, eval: Evaluator<W>, residue: bool, p: Process, c: Cast) returns (us: seq<Turn<W>>)
    requires Closed(eval, c) && Located(f, p, c) && !f.stopped
    ensures Lawful(p, eval, us, c) && AloneLog(p, eval, us, c) == Seen(f, Take(residue), c)
    ensures Step(f, eval, residue).stopped || Located(Step(f, eval, residue), Alone(p, eval, us), c)
  {
    us := [];
    if Finished(f) {
    } else if Splices(f) {
      us := SpliceHolds(f, eval, p, c);
    } else if f.running != [] {
      us := RunningHolds(f, eval, residue, p, c);
    } else if f.ready != [] {
      us := ReadyHolds(f, eval, residue, p, c);
    } else {
      Unmoved(f, f.(ready := f.trig, trig := []), p, c);
    }
  }

  lemma RunningHolds<W(!new)>(f: State<W>, eval: Evaluator<W>, residue: bool, p: Process, c: Cast) returns (us: seq<Turn<W>>)
    requires Closed(eval, c) && Located(f, p, c) && !f.stopped && f.running != [] && !Splices(f)
    ensures Lawful(p, eval, us, c) && AloneLog(p, eval, us, c) == Seen(f, Take(residue), c)
    ensures Step(f, eval, residue).stopped || Located(Step(f, eval, residue), Alone(p, eval, us), c)
  {
    var t, g := f.running[0], f.(running := f.running[1..]);
    assert g.(running := []) == f.(running := []);
    if Free(f.running, c) {
      Unmoved(f, g.(running := []), p, c);
      us := OtherExec(g, t, true, eval, residue, p, c);
    } else {
      OwnExec(g, t, eval, residue, c);
      us := [Evaluate(f.world)];
      OneTurn(p, eval, us[0], c);
    }
  }

  lemma ReadyHolds<W(!new)>(f: State<W>, eval: Evaluator<W>, residue: bool, p: Process, c: Cast) returns (us: seq<Turn<W>>)
    requires Closed(eval, c) && Located(f, p, c) && !f.stopped && f.running == [] && f.ready != [] && !Splices(f)
    ensures Lawful(p, eval, us, c) && AloneLog(p, eval, us, c) == Seen(f, Take(residue), c)
    ensures Step(f, eval, residue).stopped || Located(Step(f, eval, residue), Alone(p, eval, us), c)
  {
    match f.ready[0]
    case Proc(rest) =>
      us := [];
      Unmoved(f, f.(running := rest, ready := f.ready[1..]), p, c);
    case One(t) =>
      us := LoneHolds(f, t, eval, residue, p, c);
  }

  lemma LoneHolds<W(!new)>(f: State<W>, t: Task, eval: Evaluator<W>, residue: bool, p: Process, c: Cast) returns (us: seq<Turn<W>>)
    requires Closed(eval, c) && Located(f, p, c) && f.running == [] && f.ready != [] && f.ready[0] == One(t)
    ensures Lawful(p, eval, us, c)
    ensures AloneLog(p, eval, us, c) == if c.mine(t) then [Entry(t, f.time)] else []
    ensures var g := Exec(f.(ready := f.ready[1..]), t, false, eval, residue);
      g.stopped || Located(g, Alone(p, eval, us), c)
  {
    var g := f.(ready := f.ready[1..]);
    if !c.mine(t) {
      assert g.(running := []) == g;
      Unmoved(f, g, p, c);
      us := OtherExec(g, t, false, eval, residue, p, c);
    } else {
      LoneIsAll(f, t, p, c);
      OwnStart(g, t, eval, residue, c);
      us := [Evaluate(f.world)];
      StartIsTurn(p, t, eval, f.world, c);
    }
  }

  lemma StartIsTurn<W>(p: Process, t: Task, eval: Evaluator<W>, w: W, c: Cast)
    requires p.todo == [t] && !p.asleep && c.mine(t)
    ensures Lawful(p, eval, [Evaluate(w)], c) && AloneLog(p, eval, [Evaluate(w)], c) == [Entry(t, p.clock)]
    ensures Alone(p, eval, [Evaluate(w)]) == Continued(t, [], p.clock, eval(t, w, p.clock))
  {
    assert [t][1..] == [];
    OneTurn(p, eval, Evaluate(w), c);
  }

  /** A statement of the process that is ready by itself is the whole process. */
  lemma LoneIsAll<W>(f: State<W>, t: Task, p: Process, c: Cast)
    requires Located(f, p, c) && f.running == [] && f.ready != [] && f.ready[0] == One(t) && c.mine(t)
    ensures IsBlock(t.stmt) && p == Process([t], f.time, false)
    ensures var g := f.(ready := f.ready[1..]); Tidy(g, c) && Nowhere(g, c)
  {
    assert Fit(f.ready[0], c) && [t][0] == t && [t][1..] == [];
  }

  lemma MoveHolds<W(!new)>(f: State<W>, eval: Evaluator<W>, m: Move, p: Process, c: Cast) returns (us: seq<Turn<W>>)
    requires Closed(eval, c) && Located(f, p, c) && !f.stopped && InOrder(f, m) && Ahead(f)
    ensures Lawful(p, eval, us, c) && AloneLog(p, eval, us, c) == Seen(f, m, c)
    ensures Played(f, eval, m).stopped || Located(Played(f, eval, m), Alone(p, eval, us), c)
  {
    us := [];
    match m
    case Take(r) => us := StepHolds(f, eval, r, p, c);
    case AddNext =>
      SpottedConcat(f.next, f.ready, c);
      Unmoved(f, Played(f, eval, m), p, c);
    case Promote => Unmoved(f, Promoted(f), p, c);
    case Advance(t) => AdvanceHolds(f, eval, t, p, c);
  }

  /** The next slot begins: the process starts in it if it is due, and is not overtaken. */
  lemma AdvanceHolds<W>(f: State<W>, eval: Evaluator<W>, t: nat, p: Process, c: Cast)
    requires Located(f, p, c) && !f.stopped && InOrder(f, Advance(t)) && Ahead(f)
    ensures Located(Played(f, eval, Advance(t)), p, c)
  {
  }

  /** The whole run: for any statements in the design, the process's evaluations, each with its time,
      are those of the process alone. At every point of the run the process is in the one place
      where its own clock puts it. */
  lemma {:induction false} RunsAlone<W(!new)>(f: State<W>, eval: Evaluator<W>, ms: seq<Move>, p: Process, c: Cast) returns (us: seq<Turn<W>>)
    requires Closed(eval, c) && Ahead(f) && Ordered(f, eval, ms)
    requires f.stopped || Located(f, p, c)
    ensures Lawful(p, eval, us, c) && AloneLog(p, eval, us, c) == Log(f, eval, ms, c)
    ensures Play(f, eval, ms).stopped || Located(Play(f, eval, ms), Alone(p, eval, us), c)
    decreases ms
  {
    if ms == [] {
      us := [];
    } else {
      var g := Played(f, eval, ms[0]);
      MoveAhead(f, eval, ms[0]);
      us := [];
      if !f.stopped {
        us := MoveHolds(f, eval, ms[0], p, c);
      }
      var q := Alone(p, eval, us);
      var vs := RunsAlone(g, eval, ms[1..], q, c);
      AloneConcat(p, eval, us, vs, c);
      us := us + vs;
    }
  }
}
