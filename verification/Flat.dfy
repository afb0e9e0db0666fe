/** The scheduler seen from outside: every process is the plain sequence of tasks it still has
    to run, and one step runs one task. Frames, fences and stack pointers do not occur here. */
module Flat {
  import opened Basics
  import opened Actions

  /** An entry of an event list: one statement, or the remainder of a process. */
  datatype Item = One(task: Task) | Proc(rest: seq<Task>)

  datatype Waiter<T> = Waiter(event: nat, what: T)

  /** What the evaluation of a statement returns to the scheduler. */
  datatype Outcome = Done | Pause(delay: nat) | WaitFor(event: nat)

  /** Triggering: queue a continuous assignment, or wake what waits for an event. */
  datatype Trig = Rouse(task: Task) | Wake(event: nat)

  type pos = n: int | 0 < n witness 1

  datatype Later = Later(delay: pos, task: Task)

  /** Everything one evaluation does: it changes the values of the design (the world), appends
      to the lists of the present and of future slots, may name a block to disable, may stop the
      run, and returns an outcome. Nothing else is assumed of a statement. */
  datatype Effect<W> = Effect(
    world: W, now: seq<Task>, later: seq<Later>, trig: seq<Trig>, zdly: seq<Task>,
    nbau: seq<Task>, mon: seq<Task>, next: seq<Task>,
    disabled: Option<nat>, outcome: Outcome, stop: bool)

  type Evaluator<!W> = (Task, W, nat) -> Effect<W>

  datatype State<W> = State(
    time: nat,
    running: seq<Task>,          // the remainder of the process that has control
    ready: seq<Item>,            // active events
    trig: seq<Item>, zdly: seq<Item>, nbau: seq<Item>, mon: seq<Item>,
    next: seq<Item>,             // to be added at the next time point
    future: map<nat, seq<Item>>,
    waiting: seq<Waiter<Item>>,
    world: W,
    stopped: bool)

  predicate HoldsItem(q: seq<Item>, s: Stmt) {
    exists i :: 0 <= i < |q| && q[i].One? && q[i].task.stmt == s
  }

  function Put(q: seq<Item>, t: Task): seq<Item> {
    if HoldsItem(q, t.stmt) then q else q + [One(t)]
  }

  function PutAll(q: seq<Item>, ts: seq<Task>): seq<Item>
    decreases ts
  {
    if ts == [] then q else PutAll(Put(q, ts[0]), ts[1..])
  }

  /** The tasks of ts, without any whose statement occurs earlier in acc or ts. */
  function Fresh(acc: seq<Task>, ts: seq<Task>): seq<Task>
    decreases ts
  {
    if ts == [] then acc
    else if exists i :: 0 <= i < |acc| && acc[i].stmt == ts[0].stmt then Fresh(acc, ts[1..])
    else Fresh(acc + [ts[0]], ts[1..])
  }

  /** Statements that are all different are all taken. */
  lemma {:induction false} FreshIsAll(acc: seq<Task>, ts: seq<Task>)
    requires forall i, j :: 0 <= i < j < |acc + ts| ==> (acc + ts)[i].stmt != (acc + ts)[j].stmt
    ensures Fresh(acc, ts) == acc + ts
    decreases ts
  {
    if ts == [] {
      assert acc + ts == acc;
    } else {
      forall i | 0 <= i < |acc| ensures acc[i].stmt != ts[0].stmt {
        assert (acc + ts)[i] == acc[i] && (acc + ts)[|acc|] == ts[0];
      }
      assert (acc + [ts[0]]) + ts[1..] == acc + ts;
      FreshIsAll(acc + [ts[0]], ts[1..]);
    }
  }

  function Ones(ts: seq<Task>): (r: seq<Item>)
    ensures |r| == |ts| && forall i :: 0 <= i < |ts| ==> r[i] == One(ts[i])
  {
    seq(|ts|, i requires 0 <= i < |ts| => One(ts[i]))
  }

  function ListAt<T>(m: map<nat, seq<T>>, t: nat): seq<T> {
    if t in m then m[t] else []
  }

  function Schedule(m: map<nat, seq<Item>>, now: nat, ls: seq<Later>): map<nat, seq<Item>>
    decreases ls
  {
    if ls == [] then m
    else
      var t := now + ls[0].delay;
      Schedule(m[t := Put(ListAt(m, t), ls[0].task)], now, ls[1..])
  }

  /** What the event wakes, in the order it was parked. */
  function Woken<T>(ws: seq<Waiter<T>>, ev: nat): seq<T> {
    if ws == [] then []
    else (if ws[0].event == ev then [ws[0].what] else []) + Woken(ws[1..], ev)
  }

  function Asleep<T>(ws: seq<Waiter<T>>, ev: nat): seq<Waiter<T>> {
    if ws == [] then []
    else (if ws[0].event == ev then [] else [ws[0]]) + Asleep(ws[1..], ev)
  }

  function RaisedTrig(q: seq<Item>, ws: seq<Waiter<Item>>, ts: seq<Trig>): seq<Item>
    decreases ts
  {
    if ts == [] then q
    else match ts[0]
      case Rouse(t) => RaisedTrig(Put(q, t), ws, ts[1..])
      case Wake(ev) => RaisedTrig(q + Woken(ws, ev), Asleep(ws, ev), ts[1..])
  }

  function StillAsleep<T>(ws: seq<Waiter<T>>, ts: seq<Trig>): seq<Waiter<T>>
    decreases ts
  {
    if ts == [] then ws
    else match ts[0]
      case Rouse(_) => StillAsleep(ws, ts[1..])
      case Wake(ev) => StillAsleep(Asleep(ws, ev), ts[1..])
  }

  /** The state after an evaluation has made its changes and appended to the lists. */
  function Absorb<W>(f: State<W>, e: Effect<W>): State<W> {
    f.(trig := RaisedTrig(f.trig, f.waiting, e.trig),
       waiting := StillAsleep(f.waiting, e.trig),
       zdly := PutAll(f.zdly, e.zdly), nbau := PutAll(f.nbau, e.nbau),
       mon := PutAll(f.mon, e.mon), next := PutAll(f.next, e.next),
       future := Schedule(f.future, f.time, e.later), world := e.world)
  }

  // ---- disabling a block ----

  function KeptItem(x: Item, blk: nat): seq<Item> {
    match x
    case One(t) => if blk in t.ctx then [] else [x]
    case Proc(rest) => if Outside(rest, blk) == [] then [] else [Proc(Outside(rest, blk))]
  }

  function Kept(q: seq<Item>, blk: nat): seq<Item> {
    if q == [] then [] else KeptItem(q[0], blk) + Kept(q[1..], blk)
  }

  function KeptQueues(m: map<nat, seq<Item>>, blk: nat): map<nat, seq<Item>> {
    map t | t in m :: Kept(m[t], blk)
  }

  function KeptWaiters(ws: seq<Waiter<Item>>, blk: nat): seq<Waiter<Item>> {
    if ws == [] then []
    else
      var k := KeptItem(ws[0].what, blk);
      (if k == [] then [] else [Waiter(ws[0].event, k[0])]) + KeptWaiters(ws[1..], blk)
  }

  /** Disabling blk removes its tasks everywhere but from the triggered and the next list. */
  function Disabled<W>(f: State<W>, blk: nat): State<W> {
    f.(running := Outside(f.running, blk), ready := Kept(f.ready, blk),
       zdly := Kept(f.zdly, blk), nbau := Kept(f.nbau, blk), mon := Kept(f.mon, blk),
       future := KeptQueues(f.future, blk),
       waiting := KeptWaiters(f.waiting, blk))
  }

  // ---- one step ----

  /** The statement that would run next, if a statement is next. */
  function Head<W>(f: State<W>): Option<Task> {
    if f.running != [] then Some(f.running[0])
    else if f.ready != [] && f.ready[0].One? then Some(f.ready[0].task)
    else None
  }

  /** Triggered statements run first when a block is about to start. */
  predicate Splices<W>(f: State<W>) {
    && f.trig != [] && f.trig[0].One?
    && Head(f).Some? && IsBlock(Head(f).value.stmt)
  }

  /** The statements at the front of the list, up to the first waiting process. */
  function Leading(q: seq<Item>): seq<Task> {
    if q == [] || q[0].Proc? then [] else [q[0].task] + Leading(q[1..])
  }

  function Trailing(q: seq<Item>): seq<Item> {
    if q == [] || q[0].Proc? then q else Trailing(q[1..])
  }

  predicate Finished<W>(f: State<W>) {
    f.running == [] && f.ready == [] && f.trig == []
  }

  /** The running process gives up control and its remainder is put away. An empty remainder is
      put away only when residue says that the stack under it was purged empty. */
  function Parked<W>(f: State<W>, o: Outcome, residue: bool): State<W> {
    if o.Done? || (f.running == [] && !residue) then f
    else
      var p := Proc(f.running);
      match o
      case Pause(d) =>
        if d == 0 then f.(running := [], zdly := f.zdly + [p])
        else f.(running := [], future := f.future[f.time + d := ListAt(f.future, f.time + d) + [p]])
      case WaitFor(ev) => f.(running := [], waiting := f.waiting + [Waiter(ev, p)])
  }

  /** Run task t, already removed from f. Only a process, or a block that becomes one, can give
      up control: an outcome is ignored when a lone statement returns it. */
  function Exec<W>(f: State<W>, t: Task, inProcess: bool, eval: Evaluator<W>, residue: bool): State<W> {
    var e := eval(t, f.world, f.time);
    var g := Absorb(f, e);
    if e.stop then g.(stopped := true)
    else
      var purges := t.stmt.Disable? && e.disabled.Some?;
      var h := if purges then Disabled(g, e.disabled.value) else g;
      var made := Fresh([], e.now);
      var kept := if purges then Outside(made, e.disabled.value) else made;
      if inProcess || (IsBlock(t.stmt) && kept != []) then
        Parked(h.(running := kept + h.running), e.outcome, residue)
      else
        h.(ready := Ones(kept) + h.ready)
  }

  /** One step; a finished or stopped state stays as it is. */
  function Step<W>(f: State<W>, eval: Evaluator<W>, residue: bool): State<W> {
    if f.stopped || Finished(f) then f
    else if Splices(f) then f.(running := Leading(f.trig) + f.running, trig := Trailing(f.trig))
    else if f.running != [] then Exec(f.(running := f.running[1..]), f.running[0], true, eval, residue)
    else if f.ready != [] then
      (match f.ready[0]
       case Proc(rest) => f.(running := rest, ready := f.ready[1..])
       case One(t) => Exec(f.(ready := f.ready[1..]), t, false, eval, residue))
    else f.(ready := f.trig, trig := [])
  }

  /** A run, one residue choice a step. */
  function Run<W>(f: State<W>, eval: Evaluator<W>, rs: seq<bool>): State<W>
    decreases rs
  {
    if rs == [] then f else Run(Step(f, eval, rs[0]), eval, rs[1..])
  }

  lemma {:induction false} RunConcat<W>(f: State<W>, eval: Evaluator<W>, p: seq<bool>, q: seq<bool>)
    ensures Run(f, eval, p + q) == Run(Run(f, eval, p), eval, q)
    decreases p
  {
    if p == [] {
      assert p + q == q;
    } else {
      assert (p + q)[0] == p[0] && (p + q)[1..] == p[1..] + q;
      RunConcat(Step(f, eval, p[0]), eval, p[1..], q);
    }
  }

  /** The choices of a run that never leaves a residue. */
  function Falses(n: nat): (r: seq<bool>)
    ensures |r| == n
  {
    seq(n, i => false)
  }

  // ---- slots and regions ----

  /** What the simulator does between statements. */
  datatype Move =
    | Take(residue: bool)   // one step
    | AddNext               // the actions kept for the next time point go first
    | Promote               // an inactive, update or monitor list becomes active
    | Advance(time: nat)    // the slot is dropped and the slot for that time begins

  function Promoted<W>(f: State<W>): State<W> {
    if f.zdly != [] then f.(ready := f.zdly, zdly := [])
    else if f.nbau != [] then f.(ready := f.nbau, nbau := [])
    else f.(ready := f.mon, mon := [])
  }

  function Played<W>(f: State<W>, eval: Evaluator<W>, m: Move): State<W> {
    match m
    case Take(r) => Step(f, eval, r)
    case AddNext => f.(ready := f.next + f.ready, next := [])
    case Promote => Promoted(f)
    case Advance(t) =>
      f.(time := t, ready := ListAt(f.future, t), future := f.future - {t},
         running := [], trig := [], zdly := [], nbau := [], mon := [])
  }

  function Play<W>(f: State<W>, eval: Evaluator<W>, ms: seq<Move>): State<W>
    decreases ms
  {
    if ms == [] then f else Play(Played(f, eval, ms[0]), eval, ms[1..])
  }

  /** A move is in order when nothing of a more urgent region is left: a list is promoted only
      when no active and no triggered work is left, and a slot is dropped, for the earliest
      slot there is, only when it has run out or the run was stopped. */
  predicate InOrder<W>(f: State<W>, m: Move) {
    match m
    case Take(_) => true
    case AddNext => f.running == []
    case Promote => Finished(f) && !f.stopped
    case Advance(t) =>
      && t in f.future && (forall u :: u in f.future ==> t <= u)
      && (f.stopped || (Finished(f) && f.zdly == f.nbau == f.mon == []))
  }

  /** Nothing is left to do, now or in a later slot, except for what waits for events and what was
      kept for a next time point that does not come. */
  predicate Complete<W>(f: State<W>) {
    Finished(f) && f.zdly == f.nbau == f.mon == [] && f.future == map[]
  }

  predicate Ordered<W>(f: State<W>, eval: Evaluator<W>, ms: seq<Move>)
    decreases ms
  {
    ms == [] || (InOrder(f, ms[0]) && Ordered(Played(f, eval, ms[0]), eval, ms[1..]))
  }

  function Takes(rs: seq<bool>): seq<Move> {
    seq(|rs|, i requires 0 <= i < |rs| => Take(rs[i]))
  }

  lemma {:induction false} PlayConcat<W>(f: State<W>, eval: Evaluator<W>, p: seq<Move>, q: seq<Move>)
    ensures Play(f, eval, p + q) == Play(Play(f, eval, p), eval, q)
    ensures Ordered(f, eval, p) && Ordered(Play(f, eval, p), eval, q) ==> Ordered(f, eval, p + q)
    decreases p
  {
    if p == [] {
      assert p + q == q;
    } else {
      assert (p + q)[0] == p[0] && (p + q)[1..] == p[1..] + q;
      PlayConcat(Played(f, eval, p[0]), eval, p[1..], q);
    }
  }

  /** A run of steps is a play, and always in order. */
  lemma {:induction false} RunIsPlay<W>(f: State<W>, eval: Evaluator<W>, rs: seq<bool>)
    ensures Play(f, eval, Takes(rs)) == Run(f, eval, rs) && Ordered(f, eval, Takes(rs))
    decreases rs
  {
    if rs != [] {
      RunIsPlay(Step(f, eval, rs[0]), eval, rs[1..]);
      assert Takes(rs)[1..] == Takes(rs[1..]);
    }
  }

  lemma OneMove<W>(f: State<W>, eval: Evaluator<W>, m: Move)
    ensures Play(f, eval, [m]) == Played(f, eval, m)
    ensures InOrder(f, m) ==> Ordered(f, eval, [m])
  {
    assert [m][1..] == [];
    assert Play(f, eval, [m]) == Play(Played(f, eval, m), eval, [m][1..]);
  }

  // ---- time only moves forward ----

  predicate Ahead<W>(f: State<W>) {
    forall t :: t in f.future ==> f.time < t
  }

  lemma {:induction false} ScheduleAhead(m: map<nat, seq<Item>>, now: nat, ls: seq<Later>)
    requires forall t :: t in m ==> now < t
    ensures forall t :: t in Schedule(m, now, ls) ==> now < t
    decreases ls
  {
    if ls != [] {
      var t := now + ls[0].delay;
      ScheduleAhead(m[t := Put(ListAt(m, t), ls[0].task)], now, ls[1..]);
    }
  }

  lemma ExecAhead<W>(f: State<W>, t: Task, inProcess: bool, eval: Evaluator<W>, residue: bool)
    requires Ahead(f)
    ensures Ahead(Exec(f, t, inProcess, eval, residue)) && Exec(f, t, inProcess, eval, residue).time == f.time
  {
    ScheduleAhead(f.future, f.time, eval(t, f.world, f.time).later);
  }

  lemma StepAhead<W>(f: State<W>, eval: Evaluator<W>, residue: bool)
    requires Ahead(f)
    ensures Ahead(Step(f, eval, residue)) && Step(f, eval, residue).time == f.time
  {
    if !f.stopped && !Finished(f) && !Splices(f) {
      if f.running != [] {
        ExecAhead(f.(running := f.running[1..]), f.running[0], true, eval, residue);
      } else if f.ready != [] && f.ready[0].One? {
        ExecAhead(f.(ready := f.ready[1..]), f.ready[0].task, false, eval, residue);
      }
    }
  }

  lemma MoveAhead<W>(f: State<W>, eval: Evaluator<W>, m: Move)
    requires Ahead(f) && InOrder(f, m)
    ensures Ahead(Played(f, eval, m))
    ensures if m.Advance? then f.time < m.time == Played(f, eval, m).time else Played(f, eval, m).time == f.time
  {
    if m.Take? {
      StepAhead(f, eval, m.residue);
    }
  }

  /** The times of the slots begun during a play. */
  function Times(ms: seq<Move>): seq<nat> {
    if ms == [] then []
    else (if ms[0].Advance? then [ms[0].time] else []) + Times(ms[1..])
  }

  predicate Increasing(ts: seq<nat>) {
    forall i, j :: 0 <= i < j < |ts| ==> ts[i] < ts[j]
  }

  /** In every ordered run, whatever the statements do, the slot times strictly increase and
      start after the present. */
  lemma {:induction false} TimesIncrease<W>(f: State<W>, eval: Evaluator<W>, ms: seq<Move>)
    requires Ahead(f) && Ordered(f, eval, ms)
    ensures Increasing(Times(ms)) && forall i :: 0 <= i < |Times(ms)| ==> f.time < Times(ms)[i]
    ensures Ahead(Play(f, eval, ms)) && f.time <= Play(f, eval, ms).time
    decreases ms
  {
    if ms != [] {
      var m, g := ms[0], Played(f, eval, ms[0]);
      MoveAhead(f, eval, m);
      TimesIncrease(g, eval, ms[1..]);
      assert Times(ms) == (if m.Advance? then [m.time] else []) + Times(ms[1..]);
    }
  }

  // ---- which region runs when ----

  /** The second state runs the first region of the first state that has work, and nothing else has
      changed: zero-delay work first, then updates, then monitor actions. */
  ghost predicate TakesUpFirst<W>(f: State<W>, g: State<W>) {
    && (f.zdly != [] ==> g == f.(ready := f.zdly, zdly := []))
    && (f.zdly == [] && f.nbau != [] ==> g == f.(ready := f.nbau, nbau := []))
    && (f.zdly == [] && f.nbau == [] ==> g == f.(ready := f.mon, mon := []))
  }

  /** Wherever a list is promoted in an ordered play, nothing active or triggered is left, and the list
      is the first one with work. */
  lemma {:induction false} PromotesInOrder<W>(f: State<W>, eval: Evaluator<W>, ms: seq<Move>, i: nat)
    requires Ordered(f, eval, ms) && i < |ms| && ms[i].Promote?
    ensures var g := Play(f, eval, ms[..i]);
      g.running == [] && g.ready == [] && g.trig == [] && !g.stopped && TakesUpFirst(g, Play(f, eval, ms[..i + 1]))
    decreases i
  {
    if i == 0 {
      assert ms[..1] == [ms[0]];
      OneMove(f, eval, ms[0]);
    } else {
      assert ms[..i][0] == ms[0] && ms[..i][1..] == ms[1..][..i - 1];
      assert ms[..i + 1][0] == ms[0] && ms[..i + 1][1..] == ms[1..][..i];
      PromotesInOrder(Played(f, eval, ms[0]), eval, ms[1..], i - 1);
    }
  }

  /** The i-th move promotes a list in its turn, if it promotes one. */
  ghost predicate InTurn<W>(f: State<W>, eval: Evaluator<W>, ms: seq<Move>, i: nat)
    requires i < |ms|
  {
    ms[i].Promote? ==>
      var g := Play(f, eval, ms[..i]);
      g.running == [] && g.ready == [] && g.trig == [] && TakesUpFirst(g, Play(f, eval, ms[..i + 1]))
  }

  /** Every region of a play is taken up in its turn. */
  ghost predicate RegionsInOrder<W>(f: State<W>, eval: Evaluator<W>, ms: seq<Move>) {
    forall i :: 0 <= i < |ms| ==> InTurn(f, eval, ms, i)
  }

  lemma OrderedRegions<W>(f: State<W>, eval: Evaluator<W>, ms: seq<Move>)
    requires Ordered(f, eval, ms)
    ensures RegionsInOrder(f, eval, ms)
  {
    forall i | 0 <= i < |ms| ensures InTurn(f, eval, ms, i) {
      if ms[i].Promote? {
        PromotesInOrder(f, eval, ms, i);
      }
    }
  }

  ghost predicate NeverDisables<W(!new)>(eval: Evaluator<W>) {
    forall t: Task, w: W, now: nat :: eval(t, w, now).disabled.None?
  }

  lemma {:induction false} PutAllExtends(q: seq<Item>, ts: seq<Task>)
    ensures q <= PutAll(q, ts)
    decreases ts
  {
    if ts != [] {
      PutAllExtends(Put(q, ts[0]), ts[1..]);
    }
  }

  /** While statements run, the other regions only grow at their ends: nothing of them is run. */
  lemma StepsOnlyAppend<W(!new)>(f: State<W>, eval: Evaluator<W>, residue: bool)
    requires NeverDisables(eval)
    ensures var g := Step(f, eval, residue);
      f.zdly <= g.zdly && f.nbau <= g.nbau && f.mon <= g.mon && f.next <= g.next
  {
    if !f.stopped && !Finished(f) && !Splices(f) {
      if f.running != [] {
        ExecOnlyAppends(f.(running := f.running[1..]), f.running[0], true, eval, residue);
      } else if f.ready != [] && f.ready[0].One? {
        ExecOnlyAppends(f.(ready := f.ready[1..]), f.ready[0].task, false, eval, residue);
      }
    }
  }

  lemma ExecOnlyAppends<W(!new)>(f: State<W>, t: Task, inProcess: bool, eval: Evaluator<W>, residue: bool)
    requires NeverDisables(eval)
    ensures var g := Exec(f, t, inProcess, eval, residue);
      f.zdly <= g.zdly && f.nbau <= g.nbau && f.mon <= g.mon && f.next <= g.next
  {
    var e := eval(t, f.world, f.time);
    PutAllExtends(f.zdly, e.zdly);
    PutAllExtends(f.nbau, e.nbau);
    PutAllExtends(f.mon, e.mon);
    PutAllExtends(f.next, e.next);
  }

  /** What was put off to another region is still there, in its place, however many statements run. */
  lemma {:induction false} RegionsWait<W(!new)>(f: State<W>, eval: Evaluator<W>, rs: seq<bool>)
    requires NeverDisables(eval)
    ensures var g := Run(f, eval, rs);
      f.zdly <= g.zdly && f.nbau <= g.nbau && f.mon <= g.mon && f.next <= g.next
    decreases rs
  {
    if rs != [] {
      StepsOnlyAppend(f, eval, rs[0]);
      RegionsWait(Step(f, eval, rs[0]), eval, rs[1..]);
    }
  }

  /** Where a process waits: for a delay of zero at the end of the zero-delay list, for a longer one at
      the end of the slot of its time, for an event with the event; it is not ready in the meantime. */
  lemma ProcessWaits<W(!new)>(f: State<W>, eval: Evaluator<W>, residue: bool)
    requires !f.stopped && f.running != [] && !Splices(f)
    requires var e := eval(f.running[0], f.world, f.time);
      !e.stop && !e.outcome.Done? && e.now == [] && e.disabled.None? && f.running[1..] != []
    ensures var e := eval(f.running[0], f.world, f.time);
      var g, p := Step(f, eval, residue), Proc(f.running[1..]);
      && g.running == [] && g.ready == f.ready
      && (e.outcome == Pause(0) ==> g.zdly != [] && g.zdly[|g.zdly| - 1] == p)
      && (e.outcome.Pause? && e.outcome.delay > 0 ==>
            var t := f.time + e.outcome.delay;
            t in g.future && g.future[t] != [] && g.future[t][|g.future[t]| - 1] == p)
      && (e.outcome.WaitFor? ==> g.waiting != [] && g.waiting[|g.waiting| - 1] == Waiter(e.outcome.event, p))
  {
    var t, rest := f.running[0], f.(running := f.running[1..]);
    var e := eval(t, f.world, f.time);
    ExecParks(rest, t, eval, residue);
    ParkedLast(Absorb(rest, e), e.outcome, residue);
  }

  lemma ExecParks<W>(f: State<W>, t: Task, eval: Evaluator<W>, residue: bool)
    requires var e := eval(t, f.world, f.time); !e.stop && e.now == [] && e.disabled.None?
    ensures var e := eval(t, f.world, f.time);
      Exec(f, t, true, eval, residue) == Parked(Absorb(f, e), e.outcome, residue)
  {
    var none: seq<Task> := [];
    assert Fresh(none, none) == none && none + f.running == f.running;
  }

  lemma ParkedLast<W>(f: State<W>, o: Outcome, residue: bool)
    requires f.running != [] && !o.Done?
    ensures var g, p := Parked(f, o, residue), Proc(f.running);
      && g.running == [] && g.ready == f.ready
      && (o == Pause(0) ==> g.zdly == f.zdly + [p])
      && (o.Pause? && o.delay > 0 ==> g.future == f.future[f.time + o.delay := ListAt(f.future, f.time + o.delay) + [p]])
      && (o.WaitFor? ==> g.waiting == f.waiting + [Waiter(o.event, p)])
  {
  }

  /** What a statement sets up runs next, in order: before the rest of its process, or before what is
      ready when the statement stood alone. */
  lemma SetUpRunsNext<W>(f: State<W>, eval: Evaluator<W>, residue: bool, t: Task)
    requires !f.stopped && !Splices(f) && Head(f) == Some(t)
    requires var e := eval(t, f.world, f.time);
      && !e.stop && e.disabled.None? && e.outcome.Done?
      && forall i, j :: 0 <= i < j < |e.now| ==> e.now[i].stmt != e.now[j].stmt
    ensures var e, g := eval(t, f.world, f.time), Step(f, eval, residue);
      if f.running != [] then g.running == e.now + f.running[1..] && g.ready == f.ready
      else if IsBlock(t.stmt) && e.now != [] then g.running == e.now && g.ready == f.ready[1..]
      else g.running == [] && g.ready == Ones(e.now) + f.ready[1..]
  {
    var e := eval(t, f.world, f.time);
    assert [] + e.now == e.now;
    FreshIsAll([], e.now);
    assert e.now + [] == e.now;
  }

  // ---- events ----

  /** Only what waits for the event wakes, in the order it was parked. */
  lemma {:induction false} WakesExactly<T>(ws: seq<Waiter<T>>, ev: nat) returns (up: seq<nat>, us: seq<Waiter<T>>)
    ensures PicksAt(ws, up, us) && Woken(ws, ev) == Whats(us)
    ensures forall k: nat :: k in up <==> k < |ws| && ws[k].event == ev
  {
    up, us := [], [];
    if ws != [] {
      var at, rest := WakesExactly(ws[1..], ev);
      up := PickFirst(ws, ws[0].event == ev, at, rest);
      us := (if ws[0].event == ev then [ws[0]] else []) + rest;
    }
  }

  function Whats<T>(ws: seq<Waiter<T>>): (r: seq<T>)
    ensures |r| == |ws| && forall i :: 0 <= i < |ws| ==> r[i] == ws[i].what
  {
    seq(|ws|, i requires 0 <= i < |ws| => ws[i].what)
  }

  /** Everything else goes on waiting, in its order. */
  lemma {:induction false} OthersSleepOn<T>(ws: seq<Waiter<T>>, ev: nat) returns (on: seq<nat>)
    ensures PicksAt(ws, on, Asleep(ws, ev))
    ensures forall k: nat :: k in on <==> k < |ws| && ws[k].event != ev
  {
    on := [];
    if ws != [] {
      var at := OthersSleepOn(ws[1..], ev);
      on := PickFirst(ws, ws[0].event != ev, at, Asleep(ws[1..], ev));
    }
  }
}
