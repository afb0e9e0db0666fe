/** How the scheduler's lists of frames and saved stacks look as flat items. */
module Views {
  import opened Basics
  import opened Actions
  import opened Flat

  function ItemOf(a: Action): Item {
    match a
    case Plain(t) => One(t)
    case Saved(fs) => Proc(Join(fs))
  }

  function Queue(q: seq<Action>): (r: seq<Item>)
    ensures |r| == |q| && forall i :: 0 <= i < |q| ==> r[i] == ItemOf(q[i])
  {
    seq(|q|, i requires 0 <= i < |q| => ItemOf(q[i]))
  }

  function Queues(m: map<nat, seq<Action>>): map<nat, seq<Item>> {
    map t | t in m :: Queue(m[t])
  }

  function Waits(ws: seq<Waiter<Action>>): (r: seq<Waiter<Item>>)
    ensures |r| == |ws|
    ensures forall i :: 0 <= i < |ws| ==> r[i] == Waiter(ws[i].event, ItemOf(ws[i].what))
  {
    seq(|ws|, i requires 0 <= i < |ws| => Waiter(ws[i].event, ItemOf(ws[i].what)))
  }

  // ---- the list operations of a step, on actions ----

  function ScheduleActions(m: map<nat, seq<Action>>, now: nat, ls: seq<Later>): map<nat, seq<Action>>
    decreases ls
  {
    if ls == [] then m
    else
      var t := now + ls[0].delay;
      ScheduleActions(m[t := Appended(ListAt(m, t), Plain(ls[0].task))], now, ls[1..])
  }

  function RaisedActions(q: seq<Action>, ws: seq<Waiter<Action>>, ts: seq<Trig>): seq<Action>
    decreases ts
  {
    if ts == [] then q
    else match ts[0]
      case Rouse(t) => RaisedActions(Appended(q, Plain(t)), ws, ts[1..])
      case Wake(ev) => RaisedActions(q + Woken(ws, ev), Asleep(ws, ev), ts[1..])
  }

  function PurgedQueues(m: map<nat, seq<Action>>, blk: nat): map<nat, seq<Action>> {
    map t | t in m :: Purged(m[t], blk)
  }

  function PurgedWaiters(ws: seq<Waiter<Action>>, blk: nat): seq<Waiter<Action>> {
    if ws == [] then []
    else
      var k := PurgedAction(ws[0].what, blk);
      (if k == [] then [] else [Waiter(ws[0].event, k[0])]) + PurgedWaiters(ws[1..], blk)
  }

  // ---- each of them commutes with the view ----

  lemma QueueConcat(p: seq<Action>, q: seq<Action>)
    ensures Queue(p + q) == Queue(p) + Queue(q)
  {
  }

  lemma QueueAppended(q: seq<Action>, t: Task)
    ensures Queue(Appended(q, Plain(t))) == Put(Queue(q), t)
  {
    assert Holds(q, t.stmt) <==> HoldsItem(Queue(q), t.stmt) by {
      if Holds(q, t.stmt) {
        var i :| 0 <= i < |q| && q[i].Plain? && q[i].task.stmt == t.stmt;
        assert Queue(q)[i].One?;
      }
      if HoldsItem(Queue(q), t.stmt) {
        var i :| 0 <= i < |q| && Queue(q)[i].One? && Queue(q)[i].task.stmt == t.stmt;
        assert q[i].Plain?;
      }
    }
  }

  lemma {:induction false} QueueAppendedAll(q: seq<Action>, ts: seq<Task>)
    ensures Queue(AppendedAll(q, ts)) == PutAll(Queue(q), ts)
    decreases ts
  {
    if ts != [] {
      QueueAppended(q, ts[0]);
      QueueAppendedAll(Appended(q, Plain(ts[0])), ts[1..]);
    }
  }

  lemma {:induction false} QueuesScheduled(m: map<nat, seq<Action>>, now: nat, ls: seq<Later>)
    ensures Queues(ScheduleActions(m, now, ls)) == Schedule(Queues(m), now, ls)
    decreases ls
  {
    if ls != [] {
      var t := now + ls[0].delay;
      var m' := m[t := Appended(ListAt(m, t), Plain(ls[0].task))];
      QueueAppended(ListAt(m, t), ls[0].task);
      assert Queues(m') == Queues(m)[t := Put(ListAt(Queues(m), t), ls[0].task)];
      QueuesScheduled(m', now, ls[1..]);
    }
  }

  lemma {:induction false} WokenView(ws: seq<Waiter<Action>>, ev: nat)
    ensures Queue(Woken(ws, ev)) == Woken(Waits(ws), ev)
    ensures Waits(Asleep(ws, ev)) == Asleep(Waits(ws), ev)
  {
    if ws != [] {
      WokenView(ws[1..], ev);
      assert Waits(ws)[1..] == Waits(ws[1..]);
    }
  }

  lemma {:induction false} RaisedView(q: seq<Action>, ws: seq<Waiter<Action>>, ts: seq<Trig>)
    ensures Queue(RaisedActions(q, ws, ts)) == RaisedTrig(Queue(q), Waits(ws), ts)
    ensures Waits(StillAsleep(ws, ts)) == StillAsleep(Waits(ws), ts)
    decreases ts
  {
    if ts != [] {
      match ts[0]
      case Rouse(t) =>
        QueueAppended(q, t);
        RaisedView(Appended(q, Plain(t)), ws, ts[1..]);
      case Wake(ev) =>
        WokenView(ws, ev);
        QueueConcat(q, Woken(ws, ev));
        RaisedView(q + Woken(ws, ev), Asleep(ws, ev), ts[1..]);
    }
  }

  /** A purged list with an entry left has a task left. */
  lemma {:induction false} CleanHasTasks(q: seq<Action>, blk: nat)
    requires Clean(q, blk) && q != []
    ensures Tasks(q) != []
    decreases q
  {
    assert CleanAction(q[0], blk);
    match q[0]
    case Plain(t) =>
    case Saved(fs) => CleanStackHasTasks(fs, blk);
  }

  lemma {:induction false} CleanStackHasTasks(fs: seq<Frame>, blk: nat)
    requires !Exhausted(fs)
    requires forall i :: 0 <= i < |fs| ==> Clean(fs[i].actions, blk)
    ensures Join(fs) != []
    decreases fs
  {
    if fs[0].actions != [] {
      CleanHasTasks(fs[0].actions, blk);
    } else {
      CleanStackHasTasks(fs[1..], blk);
    }
  }

  lemma PurgedActionView(a: Action, blk: nat)
    ensures Queue(PurgedAction(a, blk)) == KeptItem(ItemOf(a), blk)
  {
    if a.Saved? {
      var left := PurgedFrames(a.frames, blk);
      PurgeFramesIsFilter(a.frames, blk);
      PurgedFramesClean(a.frames, blk);
      if Exhausted(left) {
        ExhaustedJoin(left);
      } else {
        CleanStackHasTasks(left, blk);
      }
    }
  }

  lemma {:induction false} PurgedView(q: seq<Action>, blk: nat)
    ensures Queue(Purged(q, blk)) == Kept(Queue(q), blk)
  {
    if q != [] {
      PurgedActionView(q[0], blk);
      PurgedView(q[1..], blk);
      QueueConcat(PurgedAction(q[0], blk), Purged(q[1..], blk));
      assert Queue(q)[1..] == Queue(q[1..]);
    }
  }

  lemma {:induction false} PurgedWaitersView(ws: seq<Waiter<Action>>, blk: nat)
    ensures Waits(PurgedWaiters(ws, blk)) == KeptWaiters(Waits(ws), blk)
  {
    if ws != [] {
      PurgedActionView(ws[0].what, blk);
      PurgedWaitersView(ws[1..], blk);
      assert Waits(ws)[1..] == Waits(ws[1..]);
    }
  }

  // ---- the shape the lists keep: a saved stack holds frames of one process ----

  const DEPTH: nat := 256

  /** A frame of a running or saved process: statements only, nothing nested. */
  predicate ProcessFrame(f: Frame) {
    f.kind.Sequential? && AllPlain(f.actions)
  }

  predicate AllPlain(q: seq<Action>) {
    forall i :: 0 <= i < |q| ==> q[i].Plain?
  }

  predicate GoodAction(a: Action) {
    a.Saved? ==> |a.frames| < DEPTH && forall i :: 0 <= i < |a.frames| ==> ProcessFrame(a.frames[i])
  }

  predicate GoodQueue(q: seq<Action>) {
    forall i :: 0 <= i < |q| ==> GoodAction(q[i])
  }

  predicate GoodQueues(m: map<nat, seq<Action>>) {
    forall t :: t in m ==> GoodQueue(m[t])
  }

  predicate GoodWaiters(ws: seq<Waiter<Action>>) {
    forall i :: 0 <= i < |ws| ==> GoodAction(ws[i].what)
  }

  lemma {:induction false} AppendedAllGood(q: seq<Action>, ts: seq<Task>)
    requires GoodQueue(q)
    ensures GoodQueue(AppendedAll(q, ts))
    ensures AllPlain(q) ==> AllPlain(AppendedAll(q, ts))
    decreases ts
  {
    if ts != [] {
      AppendedAllGood(Appended(q, Plain(ts[0])), ts[1..]);
    }
  }

  lemma {:induction false} ScheduledGood(m: map<nat, seq<Action>>, now: nat, ls: seq<Later>)
    requires GoodQueues(m)
    ensures GoodQueues(ScheduleActions(m, now, ls))
    decreases ls
  {
    if ls != [] {
      var t := now + ls[0].delay;
      var q := Appended(ListAt(m, t), Plain(ls[0].task));
      QueueGood(m, t, q);
      ScheduledGood(m[t := q], now, ls[1..]);
    }
  }

  lemma QueueGood(m: map<nat, seq<Action>>, t: nat, q: seq<Action>)
    requires GoodQueues(m) && GoodQueue(q)
    ensures GoodQueues(m[t := q])
  {
  }

  lemma {:induction false} WokenGood(ws: seq<Waiter<Action>>, ev: nat)
    requires GoodWaiters(ws)
    ensures GoodQueue(Woken(ws, ev)) && GoodWaiters(Asleep(ws, ev))
  {
    if ws != [] {
      WokenGood(ws[1..], ev);
    }
  }

  lemma {:induction false} RaisedGood(q: seq<Action>, ws: seq<Waiter<Action>>, ts: seq<Trig>)
    requires GoodQueue(q) && GoodWaiters(ws)
    ensures GoodQueue(RaisedActions(q, ws, ts)) && GoodWaiters(StillAsleep(ws, ts))
    decreases ts
  {
    if ts != [] {
      match ts[0]
      case Rouse(t) => RaisedGood(Appended(q, Plain(t)), ws, ts[1..]);
      case Wake(ev) =>
        WokenGood(ws, ev);
        RaisedGood(q + Woken(ws, ev), Asleep(ws, ev), ts[1..]);
    }
  }

  lemma {:induction false} PurgedPlain(q: seq<Action>, blk: nat)
    requires AllPlain(q)
    ensures AllPlain(Purged(q, blk))
  {
    if q != [] {
      PurgedPlain(q[1..], blk);
    }
  }

  lemma {:induction false} PurgedFramesGood(fs: seq<Frame>, blk: nat)
    requires forall i :: 0 <= i < |fs| ==> ProcessFrame(fs[i])
    ensures forall i :: 0 <= i < |fs| ==> ProcessFrame(PurgedFrames(fs, blk)[i])
  {
    if fs != [] {
      PurgedPlain(fs[0].actions, blk);
      PurgedFramesGood(fs[1..], blk);
    }
  }

  lemma PurgedActionGood(a: Action, blk: nat)
    requires GoodAction(a)
    ensures GoodQueue(PurgedAction(a, blk))
  {
    if a.Saved? {
      PurgedFramesGood(a.frames, blk);
      assert GoodAction(Saved(PurgedFrames(a.frames, blk)));
    }
  }

  lemma {:induction false} PurgedGood(q: seq<Action>, blk: nat)
    requires GoodQueue(q)
    ensures GoodQueue(Purged(q, blk))
  {
    if q != [] {
      assert GoodAction(q[0]);
      PurgedActionGood(q[0], blk);
      PurgedGood(q[1..], blk);
    }
  }

  lemma {:induction false} PurgedWaitersGood(ws: seq<Waiter<Action>>, blk: nat)
    requires GoodWaiters(ws)
    ensures GoodWaiters(PurgedWaiters(ws, blk))
  {
    if ws != [] {
      PurgedActionGood(ws[0].what, blk);
      PurgedWaitersGood(ws[1..], blk);
    }
  }

  /** The statements of a list without saved stacks. */
  lemma {:induction false} PlainTasks(q: seq<Action>)
    requires AllPlain(q)
    ensures |Tasks(q)| == |q| && forall i :: 0 <= i < |q| ==> Plain(Tasks(q)[i]) == q[i]
  {
    if q != [] {
      PlainTasks(q[1..]);
    }
  }

  /** What one evaluation sets up, as tasks and as a list of actions. */
  lemma {:induction false} FreshTasks(q: seq<Action>, acc: seq<Task>, ts: seq<Task>)
    requires AllPlain(q) && Tasks(q) == acc
    ensures Tasks(AppendedAll(q, ts)) == Fresh(acc, ts)
    decreases ts
  {
    if ts != [] {
      PlainTasks(q);
      var a := Plain(ts[0]);
      assert Holds(q, ts[0].stmt) <==> exists i :: 0 <= i < |acc| && acc[i].stmt == ts[0].stmt by {
        if Holds(q, ts[0].stmt) {
          var i :| 0 <= i < |q| && q[i].Plain? && q[i].task.stmt == ts[0].stmt;
          assert acc[i].stmt == ts[0].stmt;
        }
        if exists i :: 0 <= i < |acc| && acc[i].stmt == ts[0].stmt {
          var i :| 0 <= i < |acc| && acc[i].stmt == ts[0].stmt;
          assert q[i].Plain? && q[i].task.stmt == ts[0].stmt;
        }
      }
      TasksConcat(q, [a]);
      assert [a][1..] == [];
      assert Tasks([a]) == ActionTasks(a) + Tasks([]);
      FreshTasks(Appended(q, a), if Holds(q, ts[0].stmt) then acc else acc + [ts[0]], ts[1..]);
    }
  }

  /** Leading statements of a list, counted on actions and on items. */
  lemma {:induction false} LeadingView(q: seq<Action>, n: nat)
    requires n <= |q| && AllPlain(q[..n]) && (n < |q| ==> q[n].Saved?)
    ensures Leading(Queue(q)) == Tasks(q[..n]) && Trailing(Queue(q)) == Queue(q[n..])
    decreases n
  {
    if n == 0 {
      assert q[..0] == [] && q[0..] == q;
    } else {
      assert q[..n][0] == q[0] && q[..n][1..] == q[1..][..n - 1];
      assert q[1..][..n - 1] == q[..n][1..];
      LeadingView(q[1..], n - 1);
      assert Queue(q)[1..] == Queue(q[1..]) && q[1..][n - 1..] == q[n..];
    }
  }

  // ---- the whole state: stack and lists ----

  datatype Lists = Lists(
    trig: seq<Action>, zdly: seq<Action>, nbau: seq<Action>, mon: seq<Action>, next: seq<Action>,
    future: map<nat, seq<Action>>, waiting: seq<Waiter<Action>>)

  predicate GoodLists(l: Lists) {
    && GoodQueue(l.trig) && GoodQueue(l.zdly) && GoodQueue(l.nbau) && GoodQueue(l.mon)
    && GoodQueue(l.next) && GoodQueues(l.future) && GoodWaiters(l.waiting)
  }

  /** The shape of the stack: a fence at the bottom, one process above it. */
  predicate GoodStack(stack: seq<Frame>) {
    && |stack| <= DEPTH
    && (stack != [] ==> stack[0].kind.Fence? && GoodQueue(stack[0].actions))
    && forall i :: 1 <= i < |stack| ==> ProcessFrame(stack[i])
  }

  /** No frame between the fence and the top is empty. Only a purge can break this. */
  predicate NoHoles(stack: seq<Frame>) {
    forall i :: 1 <= i < |stack| - 1 ==> stack[i].actions != []
  }

  function Ready(stack: seq<Frame>): seq<Item> {
    if stack == [] then [] else Queue(stack[0].actions)
  }

  function Running(stack: seq<Frame>): seq<Task> {
    if stack == [] then [] else Join(stack[1..])
  }

  /** The flat state behind a stack and a set of lists. */
  function Show<W>(time: nat, stack: seq<Frame>, l: Lists, world: W, stopped: bool): State<W> {
    State(time, Running(stack), Ready(stack), Queue(l.trig), Queue(l.zdly), Queue(l.nbau),
          Queue(l.mon), Queue(l.next), Queues(l.future), Waits(l.waiting), world, stopped)
  }

  lemma RunningPush(stack: seq<Frame>, f: Frame)
    requires stack != []
    ensures Running(stack + [f]) == Tasks(f.actions) + Running(stack)
    ensures Ready(stack + [f]) == Ready(stack)
  {
    assert (stack + [f])[1..] == stack[1..] + [f];
    JoinPush(stack[1..], f);
  }

  lemma RunningTop(stack: seq<Frame>)
    requires |stack| >= 2
    ensures Running(stack) == Tasks(stack[|stack| - 1].actions) + Running(stack[..|stack| - 1])
    ensures Ready(stack) == Ready(stack[..|stack| - 1])
  {
    assert stack == stack[..|stack| - 1] + [stack[|stack| - 1]];
    RunningPush(stack[..|stack| - 1], stack[|stack| - 1]);
  }

  // ---- evaluation ----

  function AbsorbLists<W>(l: Lists, now: nat, e: Effect<W>): Lists {
    Lists(RaisedActions(l.trig, l.waiting, e.trig), AppendedAll(l.zdly, e.zdly),
          AppendedAll(l.nbau, e.nbau), AppendedAll(l.mon, e.mon), AppendedAll(l.next, e.next),
          ScheduleActions(l.future, now, e.later), StillAsleep(l.waiting, e.trig))
  }

  lemma AbsorbView<W>(time: nat, stack: seq<Frame>, l: Lists, world: W, e: Effect<W>)
    requires GoodLists(l)
    ensures GoodLists(AbsorbLists(l, time, e))
    ensures Show(time, stack, AbsorbLists(l, time, e), e.world, false) == Absorb(Show(time, stack, l, world, false), e)
  {
    AbsorbGood(time, l, e);
    QueueAppendedAll(l.zdly, e.zdly);
    QueueAppendedAll(l.nbau, e.nbau);
    QueueAppendedAll(l.mon, e.mon);
    QueueAppendedAll(l.next, e.next);
    RaisedView(l.trig, l.waiting, e.trig);
    QueuesScheduled(l.future, time, e.later);
  }

  /** The tasks of these that are due at time t. */
  function DueAt(ls: seq<Later>, now: nat, t: nat): seq<Task> {
    if ls == [] then [] else (if now + ls[0].delay == t then [ls[0].task] else []) + DueAt(ls[1..], now, t)
  }

  /** Each slot gets, at its end, what is scheduled for its time, and nothing else. */
  lemma {:induction false} ScheduledIs(m: map<nat, seq<Action>>, now: nat, ls: seq<Later>, t: nat)
    ensures ListAt(ScheduleActions(m, now, ls), t) == AppendedAll(ListAt(m, t), DueAt(ls, now, t))
    decreases ls
  {
    if ls != [] {
      var u := now + ls[0].delay;
      ScheduledIs(m[u := Appended(ListAt(m, u), Plain(ls[0].task))], now, ls[1..], t);
      var rest := DueAt(ls[1..], now, t);
      assert [] + rest == rest && ([ls[0].task] + rest)[1..] == rest;
    }
  }

  predicate Raises(ts: seq<Trig>, ev: nat) {
    exists k :: 0 <= k < |ts| && ts[k] == Wake(ev)
  }

  /** What triggering makes of the triggered list: it is extended; new in it is only what was queued or
      waited for a raised event; and all of that is there. */
  predicate RaisedRight(q: seq<Action>, ws: seq<Waiter<Action>>, ts: seq<Trig>, r: seq<Action>) {
    && q <= r
    && (forall i :: |q| <= i < |r| ==>
          || (r[i].Plain? && Rouse(r[i].task) in ts)
          || (exists j :: 0 <= j < |ws| && ws[j].what == r[i] && Raises(ts, ws[j].event)))
    && (forall k :: 0 <= k < |ts| && ts[k].Rouse? ==> Holds(r, ts[k].task.stmt))
    && (forall j :: 0 <= j < |ws| && Raises(ts, ws[j].event) ==> ws[j].what in r)
  }

  lemma {:induction false} RaisedIs(q: seq<Action>, ws: seq<Waiter<Action>>, ts: seq<Trig>)
    ensures RaisedRight(q, ws, ts, RaisedActions(q, ws, ts))
    ensures forall w :: w in StillAsleep(ws, ts) <==> w in ws && !Raises(ts, w.event)
    decreases ts
  {
    if ts != [] {
      var r, rest := RaisedActions(q, ws, ts), ts[1..];
      assert forall k :: 0 <= k < |rest| ==> rest[k] == ts[k + 1];
      RaisesOneMore(ts);
      match ts[0]
      case Rouse(t) =>
        RaisedIs(Appended(q, Plain(t)), ws, rest);
        HoldsAppended(q, Plain(t));
        HoldsLonger(Appended(q, Plain(t)), r, t.stmt);
      case Wake(ev) =>
        WakeMembers(ws, ev);
        RaisedIs(q + Woken(ws, ev), Asleep(ws, ev), rest);
        WakeRaises(q, ws, ts, ev, r);
    }
  }

  lemma RaisesOneMore(ts: seq<Trig>)
    requires ts != []
    ensures forall ev :: Raises(ts, ev) <==> ts[0] == Wake(ev) || Raises(ts[1..], ev)
  {
    forall ev ensures Raises(ts, ev) <==> ts[0] == Wake(ev) || Raises(ts[1..], ev) {
      if Raises(ts, ev) && ts[0] != Wake(ev) {
        var k :| 0 <= k < |ts| && ts[k] == Wake(ev);
        assert ts[1..][k - 1] == Wake(ev);
      } else if Raises(ts[1..], ev) {
        var k :| 0 <= k < |ts[1..]| && ts[1..][k] == Wake(ev);
        assert ts[k + 1] == Wake(ev);
      }
    }
  }

  lemma WakeMembers(ws: seq<Waiter<Action>>, ev: nat)
    ensures forall w :: w in Asleep(ws, ev) <==> w in ws && w.event != ev
    ensures forall x :: x in Woken(ws, ev) <==> exists j :: 0 <= j < |ws| && ws[j].event == ev && ws[j].what == x
  {
    var up, us := WakesExactly(ws, ev);
    var on := OthersSleepOn(ws, ev);
    forall w | w in ws && w.event != ev ensures w in Asleep(ws, ev) {
      var k: nat :| k < |ws| && ws[k] == w;
      assert k in on;
      var i :| 0 <= i < |on| && on[i] == k;
      assert Asleep(ws, ev)[i] == w;
    }
    forall j | 0 <= j < |ws| && ws[j].event == ev ensures ws[j].what in Woken(ws, ev) {
      assert j in up;
      var i :| 0 <= i < |up| && up[i] == j;
      assert Woken(ws, ev)[i] == ws[j].what;
    }
    forall x | x in Woken(ws, ev) ensures exists j :: 0 <= j < |ws| && ws[j].event == ev && ws[j].what == x {
      var i :| 0 <= i < |Woken(ws, ev)| && Woken(ws, ev)[i] == x;
      assert ws[up[i]].event == ev && ws[up[i]].what == x;
    }
  }

  lemma WakeRaises(q: seq<Action>, ws: seq<Waiter<Action>>, ts: seq<Trig>, ev: nat, r: seq<Action>)
    requires ts != [] && ts[0] == Wake(ev) && RaisedRight(q + Woken(ws, ev), Asleep(ws, ev), ts[1..], r)
    ensures RaisedRight(q, ws, ts, r)
  {
    RaisesOneMore(ts);
    WakeMembers(ws, ev);
    var up, left, rest := Woken(ws, ev), Asleep(ws, ev), ts[1..];
    assert forall x :: x in rest ==> x in ts;
    forall i | |q| <= i < |r|
      ensures (r[i].Plain? && Rouse(r[i].task) in ts) || (exists j :: 0 <= j < |ws| && ws[j].what == r[i] && Raises(ts, ws[j].event))
    {
      if i < |q| + |up| {
        assert r[i] == (q + up)[i] == up[i - |q|];
        assert r[i] in up;
      } else if exists k :: 0 <= k < |left| && left[k].what == r[i] && Raises(rest, left[k].event) {
        var k :| 0 <= k < |left| && left[k].what == r[i] && Raises(rest, left[k].event);
        assert left[k] in ws;
      }
    }
    forall k | 0 <= k < |ts| && ts[k].Rouse? ensures Holds(r, ts[k].task.stmt) {
      assert rest[k - 1] == ts[k];
    }
    forall j | 0 <= j < |ws| && Raises(ts, ws[j].event) ensures ws[j].what in r {
      if ws[j].event == ev {
        assert ws[j].what in up;
        var k :| 0 <= k < |up| && up[k] == ws[j].what;
        assert r[|q| + k] == (q + up)[|q| + k] == up[k];
      } else {
        assert ws[j] in left;
        var k :| 0 <= k < |left| && left[k] == ws[j];
        assert left[k].what in r;
      }
    }
  }

  /** An evaluation puts what it names on each list at the end of that list, and nowhere else. */
  lemma AbsorbExtends<W>(l: Lists, now: nat, e: Effect<W>)
    ensures var g := AbsorbLists(l, now, e);
      && Extends(l.zdly, e.zdly, g.zdly) && Extends(l.nbau, e.nbau, g.nbau)
      && Extends(l.mon, e.mon, g.mon) && Extends(l.next, e.next, g.next)
      && (forall t: nat :: Extends(ListAt(l.future, t), DueAt(e.later, now, t), ListAt(g.future, t)))
      && RaisedRight(l.trig, l.waiting, e.trig, g.trig)
      && (forall w :: w in g.waiting <==> w in l.waiting && !Raises(e.trig, w.event))
  {
    AppendedAllIs(l.zdly, e.zdly);
    AppendedAllIs(l.nbau, e.nbau);
    AppendedAllIs(l.mon, e.mon);
    AppendedAllIs(l.next, e.next);
    RaisedIs(l.trig, l.waiting, e.trig);
    forall t: nat ensures Extends(ListAt(l.future, t), DueAt(e.later, now, t), ListAt(ScheduleActions(l.future, now, e.later), t)) {
      ScheduledIs(l.future, now, e.later, t);
      AppendedAllIs(ListAt(l.future, t), DueAt(e.later, now, t));
    }
  }

  /** What is left of a list from which a block was purged. */
  ghost predicate Cleared(q: seq<Action>, r: seq<Action>, blk: nat) {
    Clean(r, blk) && Tasks(r) == Outside(Tasks(q), blk)
  }

  /** Disabling a block clears it from every list but the triggered one and the one for the next time
      point, and those are left alone. */
  lemma PurgeListsClears(l: Lists, blk: nat)
    ensures var g := PurgeLists(l, blk);
      && Cleared(l.zdly, g.zdly, blk) && Cleared(l.nbau, g.nbau, blk) && Cleared(l.mon, g.mon, blk)
      && g.future.Keys == l.future.Keys && (forall t :: t in g.future ==> Cleared(l.future[t], g.future[t], blk))
      && (forall w :: w in g.waiting ==> CleanAction(w.what, blk))
      && (forall w :: w in l.waiting && CleanAction(w.what, blk) ==> w in g.waiting)
      && g.trig == l.trig && g.next == l.next
  {
    PurgedCleared(l.zdly, blk);
    PurgedCleared(l.nbau, blk);
    PurgedCleared(l.mon, blk);
    forall t | t in l.future ensures Cleared(l.future[t], Purged(l.future[t], blk), blk) {
      PurgedCleared(l.future[t], blk);
    }
    WaitersCleared(l.waiting, blk);
  }

  lemma PurgedCleared(q: seq<Action>, blk: nat)
    ensures Cleared(q, Purged(q, blk), blk)
  {
    PurgedClean(q, blk);
    PurgeIsFilter(q, blk);
  }

  lemma {:induction false} WaitersCleared(ws: seq<Waiter<Action>>, blk: nat)
    ensures forall w :: w in PurgedWaiters(ws, blk) ==> CleanAction(w.what, blk)
    ensures forall w :: w in ws && CleanAction(w.what, blk) ==> w in PurgedWaiters(ws, blk)
  {
    if ws != [] {
      WaitersCleared(ws[1..], blk);
      PurgedActionClean(ws[0].what, blk);
      if CleanAction(ws[0].what, blk) && ws[0].what.Saved? {
        CleanFramesAreFixed(ws[0].what.frames, blk);
      }
    }
  }

  lemma AbsorbGood<W>(time: nat, l: Lists, e: Effect<W>)
    requires GoodLists(l)
    ensures GoodLists(AbsorbLists(l, time, e))
  {
    AppendedAllGood(l.zdly, e.zdly);
    AppendedAllGood(l.nbau, e.nbau);
    AppendedAllGood(l.mon, e.mon);
    AppendedAllGood(l.next, e.next);
    RaisedGood(l.trig, l.waiting, e.trig);
    ScheduledGood(l.future, time, e.later);
  }

  // ---- disabling ----

  function PurgeLists(l: Lists, blk: nat): Lists {
    l.(zdly := Purged(l.zdly, blk), nbau := Purged(l.nbau, blk), mon := Purged(l.mon, blk),
       future := PurgedQueues(l.future, blk),
       waiting := PurgedWaiters(l.waiting, blk))
  }

  lemma PurgeListsGood(l: Lists, blk: nat)
    requires GoodLists(l)
    ensures GoodLists(PurgeLists(l, blk))
  {
    PurgedGood(l.zdly, blk);
    PurgedGood(l.nbau, blk);
    PurgedGood(l.mon, blk);
    PurgedWaitersGood(l.waiting, blk);
    forall t | t in l.future ensures GoodQueue(Purged(l.future[t], blk)) {
      PurgedGood(l.future[t], blk);
    }
  }

  lemma PurgeQueuesView(m: map<nat, seq<Action>>, blk: nat)
    ensures Queues(PurgedQueues(m, blk)) == KeptQueues(Queues(m), blk)
  {
    forall t | t in m ensures Queue(Purged(m[t], blk)) == Kept(Queue(m[t]), blk) {
      PurgedView(m[t], blk);
    }
    var p, k := Queues(PurgedQueues(m, blk)), KeptQueues(Queues(m), blk);
    assert p.Keys == m.Keys && k.Keys == m.Keys;
    forall t | t in p ensures p[t] == k[t] {
      assert p[t] == Queue(Purged(m[t], blk));
    }
  }

  lemma PurgeStackView(stack: seq<Frame>, blk: nat)
    requires GoodStack(stack)
    ensures GoodStack(PurgedFrames(stack, blk))
    ensures Running(PurgedFrames(stack, blk)) == Outside(Running(stack), blk)
    ensures Ready(PurgedFrames(stack, blk)) == Kept(Ready(stack), blk)
  {
    if stack != [] {
      assert PurgedFrames(stack, blk)[1..] == PurgedFrames(stack[1..], blk);
      PurgeFramesIsFilter(stack[1..], blk);
      PurgedFramesGood(stack[1..], blk);
      PurgedGood(stack[0].actions, blk);
      PurgedView(stack[0].actions, blk);
      forall i | 1 <= i < |stack| ensures ProcessFrame(PurgedFrames(stack, blk)[i]) {
        assert PurgedFrames(stack, blk)[i] == PurgedFrames(stack[1..], blk)[i - 1];
        assert ProcessFrame(stack[1..][i - 1]);
      }
    }
  }

  lemma PurgeView<W>(time: nat, stack: seq<Frame>, l: Lists, world: W, blk: nat)
    requires GoodStack(stack) && GoodLists(l)
    ensures GoodLists(PurgeLists(l, blk)) && GoodStack(PurgedFrames(stack, blk))
    ensures Show(time, PurgedFrames(stack, blk), PurgeLists(l, blk), world, false)
         == Disabled(Show(time, stack, l, world, false), blk)
  {
    PurgeListsGood(l, blk);
    PurgeStackView(stack, blk);
    PurgedView(l.zdly, blk);
    PurgedView(l.nbau, blk);
    PurgedView(l.mon, blk);
    PurgedWaitersView(l.waiting, blk);
    PurgeQueuesView(l.future, blk);
  }

  // ---- merging what an evaluation set up ----

  /** The stack after made, set up by statement s, is put on it. */
  function Merged(stack: seq<Frame>, made: seq<Action>, s: Stmt): seq<Frame>
    requires stack != []
  {
    var below, top := stack[..|stack| - 1], stack[|stack| - 1];
    if made == [] then stack
    else if !IsBlock(s) then below + [top.(actions := made + top.actions)]
    else if top.actions != [] || !top.kind.Sequential? then stack + [Frame(made, Sequential)]
    else below + [Frame(made, Sequential)]
  }

  lemma MergedGood(stack: seq<Frame>, made: seq<Action>, s: Stmt)
    requires GoodStack(stack) && stack != [] && AllPlain(made) && |Merged(stack, made, s)| <= DEPTH
    ensures GoodStack(Merged(stack, made, s))
    ensures NoHoles(stack) ==> NoHoles(Merged(stack, made, s))
  {
    assert ProcessFrame(Frame(made, Sequential));
  }

  /** In a process, or for a block, it comes first in the running process. */
  lemma MergedInProcess(stack: seq<Frame>, made: seq<Action>, s: Stmt)
    requires stack != [] && stack[0].kind.Fence?
    requires |stack| > 1 || (IsBlock(s) && made != [])
    ensures Running(Merged(stack, made, s)) == Tasks(made) + Running(stack)
    ensures Ready(Merged(stack, made, s)) == Ready(stack)
  {
    if made != [] {
      if !IsBlock(s) {
        MergedIntoTop(stack, made);
      } else if stack[|stack| - 1].actions != [] || !stack[|stack| - 1].kind.Sequential? {
        RunningPush(stack, Frame(made, Sequential));
      } else {
        MergedReplacing(stack, made);
      }
    }
  }

  lemma MergedIntoTop(stack: seq<Frame>, made: seq<Action>)
    requires |stack| > 1
    ensures var below, top := stack[..|stack| - 1], stack[|stack| - 1];
            var m := below + [top.(actions := made + top.actions)];
            Running(m) == Tasks(made) + Running(stack) && Ready(m) == Ready(stack)
  {
    var below, top := stack[..|stack| - 1], stack[|stack| - 1];
    RunningTop(stack);
    TasksConcat(made, top.actions);
    RunningPush(below, top.(actions := made + top.actions));
    assert Tasks(made) + Tasks(top.actions) + Running(below) == Tasks(made) + (Tasks(top.actions) + Running(below));
  }

  lemma MergedReplacing(stack: seq<Frame>, made: seq<Action>)
    requires |stack| > 1 && stack[|stack| - 1].actions == []
    ensures var m := stack[..|stack| - 1] + [Frame(made, Sequential)];
            Running(m) == Tasks(made) + Running(stack) && Ready(m) == Ready(stack)
  {
    var below := stack[..|stack| - 1];
    RunningTop(stack);
    assert Tasks([]) == [] && Running(stack) == [] + Running(below) == Running(below);
    assert (below + [Frame(made, Sequential)])[0] == stack[0];
    RunningPush(below, Frame(made, Sequential));
  }

  /** A lone statement that is no block adds to the ready list. */
  lemma MergedAlone(stack: seq<Frame>, made: seq<Action>, s: Stmt)
    requires GoodStack(stack) && |stack| == 1 && AllPlain(made)
    requires !(IsBlock(s) && made != [])
    ensures Running(Merged(stack, made, s)) == []
    ensures Ready(Merged(stack, made, s)) == Ones(Tasks(made)) + Ready(stack)
  {
    PlainTasks(made);
    QueueConcat(made, stack[0].actions);
    assert Queue(made) == Ones(Tasks(made));
  }

  // ---- parking the running process ----

  /** The index of the last frame worth saving. */
  function LastUsed(stack: seq<Frame>): int
    requires stack != []
  {
    if stack[|stack| - 1].actions == [] then |stack| - 2 else |stack| - 1
  }

  function ParkedLists(l: Lists, now: nat, o: Outcome, a: Action): Lists {
    match o
    case Done => l
    case Pause(d) =>
      if d == 0 then l.(zdly := l.zdly + [a])
      else l.(future := l.future[now + d := ListAt(l.future, now + d) + [a]])
    case WaitFor(ev) => l.(waiting := l.waiting + [Waiter(ev, a)])
  }

  lemma LastUsedView(stack: seq<Frame>)
    requires stack != []
    ensures LastUsed(stack) >= 1 ==> Join(stack[1..LastUsed(stack) + 1]) == Running(stack)
    ensures LastUsed(stack) < 1 ==> Running(stack) == []
  {
    if |stack| > 1 {
      RunningTop(stack);
      if LastUsed(stack) == |stack| - 1 {
        assert stack[1..] == stack[1..LastUsed(stack) + 1];
      } else {
        assert stack[..|stack| - 1][1..] == stack[1..LastUsed(stack) + 1];
      }
    }
  }

  lemma LastUsedHasTasks(stack: seq<Frame>)
    requires GoodStack(stack) && stack != [] && NoHoles(stack) && LastUsed(stack) >= 1
    ensures Running(stack) != []
  {
    var lsp := LastUsed(stack);
    LastUsedView(stack);
    assert ProcessFrame(stack[lsp]) && stack[lsp].actions != [];
    PlainTasks(stack[lsp].actions);
    RunningTop(stack[..lsp + 1]);
    assert stack[..lsp + 1][1..] == stack[1..lsp + 1];
  }

  lemma ParkedView<W>(time: nat, stack: seq<Frame>, l: Lists, world: W, o: Outcome)
    requires GoodStack(stack) && GoodLists(l) && stack != []
    requires LastUsed(stack) >= 1 && !o.Done?
    ensures var a := Saved(stack[1..LastUsed(stack) + 1]);
            && GoodLists(ParkedLists(l, time, o, a))
            && Show(time, stack[..1], ParkedLists(l, time, o, a), world, false)
               == Parked(Show(time, stack, l, world, false), o, Running(stack) == [])
  {
    LastUsedView(stack);
    var a := Saved(stack[1..LastUsed(stack) + 1]);
    assert GoodAction(a);
    assert stack[..1][1..] == [];
    ParkedListsGood(l, time, o, a);
    if o == Pause(0) {
      QueueConcat(l.zdly, [a]);
      assert Queue([a]) == [Proc(Running(stack))];
    } else if o.Pause? {
      FutureParked(l.future, time + o.delay, a);
    } else {
      WaitingParked(l.waiting, o.event, a);
    }
  }

  lemma ParkedListsGood(l: Lists, now: nat, o: Outcome, a: Action)
    requires GoodLists(l) && GoodAction(a)
    ensures GoodLists(ParkedLists(l, now, o, a))
  {
  }

  lemma FutureParked(m: map<nat, seq<Action>>, t: nat, a: Action)
    ensures Queues(m[t := ListAt(m, t) + [a]]) == Queues(m)[t := ListAt(Queues(m), t) + [ItemOf(a)]]
  {
    QueueConcat(ListAt(m, t), [a]);
    assert Queue([a]) == [ItemOf(a)];
  }

  lemma WaitingParked(ws: seq<Waiter<Action>>, ev: nat, a: Action)
    ensures Waits(ws + [Waiter(ev, a)]) == Waits(ws) + [Waiter(ev, ItemOf(a))]
  {
  }

  // ---- one evaluation, all together ----

  /** A stack and lists. */
  datatype Machine = Machine(stack: seq<Frame>, lists: Lists)

  function ShowMachine<W>(time: nat, m: Machine, world: W, stopped: bool): State<W> {
    Show(time, m.stack, m.lists, world, stopped)
  }

  ghost predicate GoodMachine(m: Machine) {
    GoodStack(m.stack) && GoodLists(m.lists)
  }

  predicate Purges<W>(t: Task, e: Effect<W>) {
    t.stmt.Disable? && e.disabled.Some?
  }

  /** After the appends, and the purge if a block was disabled. */
  function Evaluated<W>(m: Machine, time: nat, t: Task, e: Effect<W>): Machine {
    var l := AbsorbLists(m.lists, time, e);
    if Purges(t, e) then Machine(PurgedFrames(m.stack, e.disabled.value), PurgeLists(l, e.disabled.value))
    else Machine(m.stack, l)
  }

  /** The actions that the evaluation set up in the current slot. */
  function Made<W>(t: Task, e: Effect<W>): seq<Action> {
    var made := AppendedAll([], e.now);
    if Purges(t, e) then Purged(made, e.disabled.value) else made
  }

  /** After a process has given up control. */
  function Left(m: Machine, time: nat, o: Outcome): Machine
    requires m.stack != []
  {
    if o.Done? || LastUsed(m.stack) < 1 then m
    else Machine(m.stack[..1], ParkedLists(m.lists, time, o, Saved(m.stack[1..LastUsed(m.stack) + 1])))
  }

  /** A residue is parked when a process without tasks still has frames to save. */
  predicate LeavesResidue(m: Machine, o: Outcome)
    requires m.stack != []
  {
    !o.Done? && LastUsed(m.stack) >= 1 && Running(m.stack) == []
  }

  lemma EvaluatedView<W>(m: Machine, time: nat, world: W, t: Task, e: Effect<W>)
    requires GoodMachine(m)
    ensures GoodMachine(Evaluated(m, time, t, e)) && |Evaluated(m, time, t, e).stack| == |m.stack|
    ensures AllPlain(Made(t, e))
    ensures var g := Absorb(ShowMachine(time, m, world, false), e);
            ShowMachine(time, Evaluated(m, time, t, e), e.world, false)
            == if Purges(t, e) then Disabled(g, e.disabled.value) else g
    ensures Tasks(Made(t, e)) == if Purges(t, e) then Outside(Fresh([], e.now), e.disabled.value) else Fresh([], e.now)
    ensures Made(t, e) == [] <==> Tasks(Made(t, e)) == []
  {
    AbsorbView(time, m.stack, m.lists, world, e);
    AppendedAllGood([], e.now);
    FreshTasks([], [], e.now);
    if Purges(t, e) {
      PurgeView(time, m.stack, AbsorbLists(m.lists, time, e), e.world, e.disabled.value);
      PurgeIsFilter(AppendedAll([], e.now), e.disabled.value);
      PurgedPlain(AppendedAll([], e.now), e.disabled.value);
    }
    PlainTasks(Made(t, e));
  }

  lemma EvaluatedGood<W>(m: Machine, time: nat, t: Task, e: Effect<W>)
    requires GoodMachine(m)
    ensures GoodStack(Evaluated(m, time, t, e).stack) && |Evaluated(m, time, t, e).stack| == |m.stack|
    ensures AllPlain(Made(t, e))
  {
    EvaluatedView(m, time, e.world, t, e);
  }

  lemma LeftView<W>(m: Machine, time: nat, world: W, o: Outcome)
    requires GoodMachine(m) && |m.stack| > 1
    ensures GoodMachine(Left(m, time, o)) && Left(m, time, o).stack != []
    ensures ShowMachine(time, Left(m, time, o), world, false)
         == Parked(ShowMachine(time, m, world, false), o, LeavesResidue(m, o))
    ensures NoHoles(m.stack) ==> NoHoles(Left(m, time, o).stack) && !LeavesResidue(m, o)
  {
    LastUsedView(m.stack);
    if !o.Done? && LastUsed(m.stack) >= 1 {
      ParkedView(time, m.stack, m.lists, world, o);
      if NoHoles(m.stack) {
        LastUsedHasTasks(m.stack);
      }
    }
  }

  /** The machine after statement t was evaluated with effect e. */
  function Executed<W>(m: Machine, time: nat, t: Task, e: Effect<W>): Machine
    requires m.stack != []
  {
    var x := Evaluated(m, time, t, e);
    Left(Machine(Merged(x.stack, Made(t, e), t.stmt), x.lists), time, e.outcome)
  }

  /** Whether the evaluation needs more frames than there are. */
  predicate Deep<W>(m: Machine, time: nat, t: Task, e: Effect<W>)
    requires m.stack != []
  {
    |Merged(Evaluated(m, time, t, e).stack, Made(t, e), t.stmt)| > DEPTH
  }

  function Residue<W>(m: Machine, time: nat, t: Task, e: Effect<W>): bool
    requires m.stack != []
  {
    var x := Evaluated(m, time, t, e);
    LeavesResidue(Machine(Merged(x.stack, Made(t, e), t.stmt), x.lists), e.outcome)
  }

  lemma ExecutedView<W>(m: Machine, time: nat, world: W, t: Task, eval: Evaluator<W>)
    requires GoodMachine(m) && m.stack != []
    requires var e := eval(t, world, time); !e.stop && !Deep(m, time, t, e)
    ensures var e := eval(t, world, time);
            && GoodMachine(Executed(m, time, t, e)) && Executed(m, time, t, e).stack != []
            && ShowMachine(time, Executed(m, time, t, e), e.world, false)
               == Exec(ShowMachine(time, m, world, false), t, |m.stack| > 1, eval, Residue(m, time, t, e))
            && (NoHoles(m.stack) && !Purges(t, e) ==> NoHoles(Executed(m, time, t, e).stack) && !Residue(m, time, t, e))
  {
    var e := eval(t, world, time);
    var x, made := Evaluated(m, time, t, e), Made(t, e);
    var y := Machine(Merged(x.stack, made, t.stmt), x.lists);
    EvaluatedView(m, time, world, t, e);
    MergedGood(x.stack, made, t.stmt);
    if |m.stack| > 1 || (IsBlock(t.stmt) && made != []) {
      MergedInProcess(x.stack, made, t.stmt);
      LeftView(y, time, e.world, e.outcome);
    } else {
      MergedAlone(x.stack, made, t.stmt);
      assert Left(y, time, e.outcome) == y;
    }
  }
}
