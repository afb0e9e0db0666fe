/** How far the stack of frames can grow. With statements nested at most 254 deep, and triggered
    statements that are plain, no turn of the loop is ever short of a frame. */
module Depths {
  import opened Basics
  import opened Actions
  import opened Flat
  import opened Views
  import opened Scheduling
  import opened Unfolding
  import Timetables

  /** A depth for every statement, and the greatest there is in the design. */
  datatype Limit = Limit(depth: Stmt -> nat, most: nat)

  /** What a statement sets up is less deep than the statement, except that the last of it may be as
      deep: a loop queues itself behind its body. */
  predicate NowFits(ts: seq<Task>, d: nat, lim: Limit) {
    forall i :: 0 <= i < |ts| ==> lim.depth(ts[i].stmt) <= d && (i < |ts| - 1 ==> lim.depth(ts[i].stmt) < d)
  }

  predicate AllWithin(ts: seq<Task>, lim: Limit) {
    forall i :: 0 <= i < |ts| ==> lim.depth(ts[i].stmt) <= lim.most
  }

  predicate EffectFits<W>(t: Task, e: Effect<W>, lim: Limit) {
    && NowFits(e.now, lim.depth(t.stmt), lim)
    && AllWithin(e.zdly, lim) && AllWithin(e.nbau, lim) && AllWithin(e.mon, lim) && AllWithin(e.next, lim)
    && (forall i :: 0 <= i < |e.later| ==> lim.depth(e.later[i].task.stmt) <= lim.most)
    && (forall i :: 0 <= i < |e.trig| && e.trig[i].Rouse? ==> lim.depth(e.trig[i].task.stmt) == 0)
  }

  /** Blocks have a depth, and every evaluation keeps to the depths. */
  ghost predicate Shallow<W(!new)>(eval: Evaluator<W>, lim: Limit) {
    && (forall s {:trigger lim.depth(s)} :: IsBlock(s) ==> lim.depth(s) > 0)
    && (forall t: Task, w: W, now: nat :: EffectFits(t, eval(t, w, now), lim))
  }

  // ---- what frames may hold ----

  /** The depth left for the statements of frame j. */
  function Cap(lim: Limit, j: nat): nat {
    if j <= lim.most then lim.most - j else 0
  }

  /** Statements up to depth lo, the last of them up to depth hi. */
  predicate Layer(q: seq<Action>, lo: nat, hi: nat, lim: Limit) {
    forall i :: 0 <= i < |q| ==> q[i].Plain? && lim.depth(q[i].task.stmt) <= if i == |q| - 1 then hi else lo
  }

  predicate FrameFits(q: seq<Action>, j: nat, lim: Limit)
    requires j > 0
  {
    Layer(q, Cap(lim, j), Cap(lim, j - 1), lim)
  }

  /** The frames of a process, above the fence. */
  predicate FramesFit(fs: seq<Frame>, lim: Limit) {
    forall i :: 0 <= i < |fs| ==> FrameFits(fs[i].actions, i + 1, lim)
  }

  predicate ActionFits(a: Action, d: nat, lim: Limit) {
    match a
    case Plain(t) => lim.depth(t.stmt) <= d
    case Saved(fs) => FramesFit(fs, lim)
  }

  predicate QueueFits(q: seq<Action>, d: nat, lim: Limit) {
    forall i :: 0 <= i < |q| ==> ActionFits(q[i], d, lim)
  }

  predicate WaitersFit(ws: seq<Waiter<Action>>, lim: Limit) {
    forall i :: 0 <= i < |ws| ==> ws[i].what.Saved? && FramesFit(ws[i].what.frames, lim)
  }

  predicate QueuesFit(m: map<nat, seq<Action>>, lim: Limit) {
    forall t :: t in m ==> QueueFits(m[t], lim.most, lim)
  }

  predicate ListsFit(l: Lists, lim: Limit) {
    && QueueFits(l.trig, 0, lim) && QueueFits(l.zdly, lim.most, lim) && QueueFits(l.nbau, lim.most, lim)
    && QueueFits(l.mon, lim.most, lim) && QueueFits(l.next, lim.most, lim)
    && QueuesFit(l.future, lim) && WaitersFit(l.waiting, lim)
  }

  predicate StackFits(stack: seq<Frame>, lim: Limit) {
    && (stack != [] ==> QueueFits(stack[0].actions, lim.most, lim))
    && forall i :: 1 <= i < |stack| ==> FrameFits(stack[i].actions, i, lim)
  }

  ghost predicate Fits(m: Machine, lim: Limit) {
    GoodMachine(m) && StackFits(m.stack, lim) && ListsFit(m.lists, lim)
  }

  // ---- lists ----

  lemma {:induction false} AppendedFits(q: seq<Action>, ts: seq<Task>, lim: Limit)
    requires QueueFits(q, lim.most, lim) && AllWithin(ts, lim)
    ensures QueueFits(AppendedAll(q, ts), lim.most, lim)
    decreases ts
  {
    if ts != [] {
      AppendedFits(Appended(q, Plain(ts[0])), ts[1..], lim);
    }
  }

  lemma {:induction false} ScheduledFits(m: map<nat, seq<Action>>, now: nat, ls: seq<Later>, lim: Limit)
    requires QueuesFit(m, lim) && forall i :: 0 <= i < |ls| ==> lim.depth(ls[i].task.stmt) <= lim.most
    ensures QueuesFit(ScheduleActions(m, now, ls), lim)
    decreases ls
  {
    if ls != [] {
      var t := now + ls[0].delay;
      OneAppendedFits(ListAt(m, t), ls[0].task, lim);
      ScheduledFits(m[t := Appended(ListAt(m, t), Plain(ls[0].task))], now, ls[1..], lim);
    }
  }

  lemma OneAppendedFits(q: seq<Action>, t: Task, lim: Limit)
    requires QueueFits(q, lim.most, lim) && lim.depth(t.stmt) <= lim.most
    ensures QueueFits(Appended(q, Plain(t)), lim.most, lim)
  {
  }

  lemma {:induction false} WokenFit(ws: seq<Waiter<Action>>, ev: nat, lim: Limit)
    requires WaitersFit(ws, lim)
    ensures QueueFits(Woken(ws, ev), 0, lim) && WaitersFit(Asleep(ws, ev), lim)
  {
    if ws != [] {
      WokenFit(ws[1..], ev, lim);
    }
  }

  lemma {:induction false} RaisedFits(q: seq<Action>, ws: seq<Waiter<Action>>, ts: seq<Trig>, lim: Limit)
    requires QueueFits(q, 0, lim) && WaitersFit(ws, lim)
    requires forall i :: 0 <= i < |ts| && ts[i].Rouse? ==> lim.depth(ts[i].task.stmt) == 0
    ensures QueueFits(RaisedActions(q, ws, ts), 0, lim) && WaitersFit(StillAsleep(ws, ts), lim)
    decreases ts
  {
    if ts != [] {
      match ts[0]
      case Rouse(t) =>
        RaisedFits(Appended(q, Plain(t)), ws, ts[1..], lim);
      case Wake(ev) =>
        WokenFit(ws, ev, lim);
        RaisedFits(q + Woken(ws, ev), Asleep(ws, ev), ts[1..], lim);
    }
  }

  // ---- purges ----

  lemma {:induction false} LayerPurged(q: seq<Action>, lo: nat, hi: nat, blk: nat, lim: Limit)
    requires Layer(q, lo, hi, lim) && lo <= hi
    ensures Layer(Purged(q, blk), lo, hi, lim) && |Purged(q, blk)| <= |q|
  {
    if q != [] {
      LayerPurged(q[1..], lo, hi, blk, lim);
    }
  }

  lemma {:induction false} FramesPurged(fs: seq<Frame>, blk: nat, lim: Limit)
    requires FramesFit(fs, lim)
    ensures FramesFit(PurgedFrames(fs, blk), lim)
  {
    PurgedFramesAt(fs, blk);
    forall i | 0 <= i < |fs| ensures FrameFits(PurgedFrames(fs, blk)[i].actions, i + 1, lim) {
      LayerPurged(fs[i].actions, Cap(lim, i + 1), Cap(lim, i), blk, lim);
    }
  }

  lemma {:induction false} QueuePurged(q: seq<Action>, d: nat, blk: nat, lim: Limit)
    requires QueueFits(q, d, lim)
    ensures QueueFits(Purged(q, blk), d, lim)
  {
    if q != [] {
      QueuePurged(q[1..], d, blk, lim);
      assert ActionFits(q[0], d, lim);
      if q[0].Saved? {
        FramesPurged(q[0].frames, blk, lim);
      }
    }
  }

  lemma {:induction false} WaitersPurged(ws: seq<Waiter<Action>>, blk: nat, lim: Limit)
    requires WaitersFit(ws, lim)
    ensures WaitersFit(PurgedWaiters(ws, blk), lim)
  {
    if ws != [] {
      WaitersPurged(ws[1..], blk, lim);
      FramesPurged(ws[0].what.frames, blk, lim);
    }
  }

  lemma ListsPurged(l: Lists, blk: nat, lim: Limit)
    requires ListsFit(l, lim)
    ensures ListsFit(PurgeLists(l, blk), lim)
  {
    QueuePurged(l.zdly, lim.most, blk, lim);
    QueuePurged(l.nbau, lim.most, blk, lim);
    QueuePurged(l.mon, lim.most, blk, lim);
    WaitersPurged(l.waiting, blk, lim);
    forall t | t in l.future ensures QueueFits(Purged(l.future[t], blk), lim.most, lim) {
      QueuePurged(l.future[t], lim.most, blk, lim);
    }
  }

  lemma StackPurged(stack: seq<Frame>, blk: nat, lim: Limit)
    requires StackFits(stack, lim)
    ensures StackFits(PurgedFrames(stack, blk), lim)
  {
    PurgedFramesAt(stack, blk);
    if stack != [] {
      QueuePurged(stack[0].actions, lim.most, blk, lim);
    }
    forall i | 1 <= i < |stack| ensures FrameFits(PurgedFrames(stack, blk)[i].actions, i, lim) {
      LayerPurged(stack[i].actions, Cap(lim, i), Cap(lim, i - 1), blk, lim);
    }
  }

  // ---- one evaluation ----

  /** The appends, and the purge if there is one, keep to the depths. */
  lemma EvaluatedFits<W>(m: Machine, time: nat, t: Task, e: Effect<W>, lim: Limit)
    requires Fits(m, lim) && EffectFits(t, e, lim)
    ensures Fits(Evaluated(m, time, t, e), lim)
  {
    EvaluatedGood(m, time, t, e);
    AbsorbGood(time, m.lists, e);
    var l := AbsorbLists(m.lists, time, e);
    AppendedFits(m.lists.zdly, e.zdly, lim);
    AppendedFits(m.lists.nbau, e.nbau, lim);
    AppendedFits(m.lists.mon, e.mon, lim);
    AppendedFits(m.lists.next, e.next, lim);
    ScheduledFits(m.lists.future, time, e.later, lim);
    RaisedFits(m.lists.trig, m.lists.waiting, e.trig, lim);
    if Purges(t, e) {
      PurgeListsGood(l, e.disabled.value);
      StackPurged(m.stack, e.disabled.value, lim);
      ListsPurged(l, e.disabled.value, lim);
    }
  }

  function Less(d: nat): nat {
    if d == 0 then 0 else d - 1
  }

  lemma {:induction false} LayerAppended(q: seq<Action>, ts: seq<Task>, d: nat, lim: Limit)
    requires Layer(q, Less(d), Less(d), lim) && NowFits(ts, d, lim)
    ensures Layer(AppendedAll(q, ts), Less(d), d, lim)
    decreases ts
  {
    if ts != [] {
      var next := Appended(q, Plain(ts[0]));
      if |ts| == 1 {
        assert ts[1..] == [];
        assert AppendedAll(next, []) == next;
      } else {
        LayerAppended(next, ts[1..], d, lim);
      }
    }
  }

  lemma MadeFits<W>(t: Task, e: Effect<W>, lim: Limit)
    requires EffectFits(t, e, lim)
    ensures var d := lim.depth(t.stmt); Layer(Made(t, e), Less(d), d, lim)
  {
    var d := lim.depth(t.stmt);
    LayerAppended([], e.now, d, lim);
    if Purges(t, e) {
      LayerPurged(AppendedAll([], e.now), Less(d), d, e.disabled.value, lim);
    }
  }

  /** Where a statement of depth d may have come from: frame j, with more behind it or not. */
  predicate TopFits(d: nat, stack: seq<Frame>, lim: Limit)
    requires stack != []
  {
    var j := |stack| - 1;
    if j == 0 then d <= lim.most
    else d <= Cap(lim, j - 1) && (stack[j].actions != [] ==> d <= Cap(lim, j))
  }

  lemma MergedFits(stack: seq<Frame>, made: seq<Action>, s: Stmt, lim: Limit)
    requires GoodStack(stack) && stack != [] && StackFits(stack, lim)
    requires IsBlock(s) ==> lim.depth(s) > 0
    requires TopFits(lim.depth(s), stack, lim) && Layer(made, Less(lim.depth(s)), lim.depth(s), lim)
    ensures StackFits(Merged(stack, made, s), lim)
  {
    var j, d := |stack| - 1, lim.depth(s);
    var top := stack[j];
    if made != [] {
      if !IsBlock(s) {
        assert j > 0 ==> FrameFits(top.actions, j, lim);
        assert j > 0 ==> FrameFits(made + top.actions, j, lim);
      } else if top.actions != [] || !top.kind.Sequential? {
        assert j > 0 ==> ProcessFrame(top);
        assert FrameFits(made, j + 1, lim);
      } else {
        assert FrameFits(made, j, lim);
      }
    }
  }

  lemma LeftFits(m: Machine, time: nat, o: Outcome, lim: Limit)
    requires m.stack != [] && StackFits(m.stack, lim) && ListsFit(m.lists, lim)
    ensures StackFits(Left(m, time, o).stack, lim) && ListsFit(Left(m, time, o).lists, lim)
  {
    if !o.Done? && LastUsed(m.stack) >= 1 {
      var fs := m.stack[1..LastUsed(m.stack) + 1];
      forall i | 0 <= i < |fs| ensures FrameFits(fs[i].actions, i + 1, lim) {
        assert fs[i] == m.stack[i + 1];
      }
      assert ActionFits(Saved(fs), lim.most, lim);
    }
  }

  lemma TopStays<W>(m: Machine, time: nat, t: Task, e: Effect<W>, d: nat, lim: Limit)
    requires m.stack != [] && TopFits(d, m.stack, lim)
    ensures Evaluated(m, time, t, e).stack != [] && TopFits(d, Evaluated(m, time, t, e).stack, lim)
  {
    if Purges(t, e) {
      PurgedFramesAt(m.stack, e.disabled.value);
    }
  }

  lemma ExecutedFits<W>(m: Machine, time: nat, t: Task, e: Effect<W>, lim: Limit)
    requires Fits(m, lim) && m.stack != [] && EffectFits(t, e, lim) && TopFits(lim.depth(t.stmt), m.stack, lim)
    requires IsBlock(t.stmt) ==> lim.depth(t.stmt) > 0
    requires !Deep(m, time, t, e)
    ensures Fits(Executed(m, time, t, e), lim)
  {
    var x := Evaluated(m, time, t, e);
    EvaluatedFits(m, time, t, e, lim);
    EvaluatedGood(m, time, t, e);
    TopStays(m, time, t, e, lim.depth(t.stmt), lim);
    MadeFits(t, e, lim);
    MergeAndLeave(x, time, t.stmt, Made(t, e), e.outcome, lim);
  }

  lemma MergeAndLeave(x: Machine, time: nat, s: Stmt, made: seq<Action>, o: Outcome, lim: Limit)
    requires Fits(x, lim) && x.stack != [] && TopFits(lim.depth(s), x.stack, lim)
    requires IsBlock(s) ==> lim.depth(s) > 0
    requires Layer(made, Less(lim.depth(s)), lim.depth(s), lim) && AllPlain(made)
    requires |Merged(x.stack, made, s)| <= DEPTH
    ensures Fits(Left(Machine(Merged(x.stack, made, s), x.lists), time, o), lim)
  {
    var y := Machine(Merged(x.stack, made, s), x.lists);
    MergedFits(x.stack, made, s, lim);
    MergedGood(x.stack, made, s);
    LeftFits(y, time, o, lim);
    LeftGood(y, time, o);
  }

  lemma LeftGood(m: Machine, time: nat, o: Outcome)
    requires GoodMachine(m) && m.stack != []
    ensures GoodMachine(Left(m, time, o))
  {
  }

  // ---- one turn ----

  lemma PoppedFits(m: Machine, lim: Limit)
    requires Fits(m, lim) && m.stack != [] && m.stack[|m.stack| - 1].actions != []
    ensures Fits(Popped(m), lim)
    ensures var a := m.stack[|m.stack| - 1].actions[0];
      if a.Plain? then TopFits(lim.depth(a.task.stmt), Popped(m).stack, lim)
      else |m.stack| == 1 && GoodAction(a) && FramesFit(a.frames, lim)
  {
    var j := |m.stack| - 1;
    var q := m.stack[j].actions;
    TailOfStack(m.stack, Popped(m).stack);
    if j > 0 {
      assert FrameFits(q, j, lim);
      assert FrameFits(q[1..], j, lim);
      assert ProcessFrame(m.stack[j]);
    } else {
      assert ActionFits(q[0], lim.most, lim);
    }
  }

  lemma TakenFits<W(!new)>(c: Config<W>, time: nat, eval: Evaluator<W>, lim: Limit)
    requires Fits(c.m, lim) && Shallow(eval, lim) && !TopDeep(c.m, time, c.world, eval)
    requires c.m.stack != [] && c.m.stack[|c.m.stack| - 1].actions != []
    ensures Fits(Taken(c, time, eval).m, lim)
  {
    match c.m.stack[|c.m.stack| - 1].actions[0]
    case Plain(t) =>
      if !eval(t, c.world, time).stop {
        TurnedFits(c.m, time, t, c.world, eval, lim);
      }
    case Saved(fs) =>
      PoppedFits(c.m, lim);
      UnwoundFits(Popped(c.m), fs, lim);
  }

  lemma TurnedFits<W(!new)>(m: Machine, time: nat, t: Task, world: W, eval: Evaluator<W>, lim: Limit)
    requires Fits(m, lim) && Shallow(eval, lim)
    requires m.stack != [] && m.stack[|m.stack| - 1].actions != [] && m.stack[|m.stack| - 1].actions[0] == Plain(t)
    requires !Deep(Popped(m), time, t, eval(t, world, time))
    ensures Fits(Executed(Popped(m), time, t, eval(t, world, time)), lim)
  {
    PoppedFits(m, lim);
    assert EffectFits(t, eval(t, world, time), lim) && (IsBlock(t.stmt) ==> lim.depth(t.stmt) > 0);
    ExecutedFits(Popped(m), time, t, eval(t, world, time), lim);
  }

  lemma UnwoundFits(x: Machine, fs: seq<Frame>, lim: Limit)
    requires Fits(x, lim) && |x.stack| == 1 && GoodAction(Saved(fs)) && FramesFit(fs, lim)
    ensures Fits(Machine([x.stack[0].(kind := Fence)] + fs, x.lists), lim)
  {
    var stack := [x.stack[0].(kind := Fence)] + fs;
    forall i | 1 <= i < |stack| ensures FrameFits(stack[i].actions, i, lim) && ProcessFrame(stack[i]) {
      assert stack[i] == fs[i - 1] && FrameFits(fs[i - 1].actions, i - 1 + 1, lim);
    }
  }

  lemma StalledFits(m: Machine, lim: Limit)
    requires Fits(m, lim) && |m.stack| == 1
    ensures Fits(Stalled(m), lim)
  {
    forall i | 0 <= i < |m.lists.trig| ensures ActionFits(m.lists.trig[i], lim.most, lim) {
      assert ActionFits(m.lists.trig[i], 0, lim);
    }
  }

  lemma SplicedFits(m: Machine, lim: Limit)
    requires Fits(m, lim) && m.stack != [] && |m.stack| < DEPTH
    ensures Fits(Spliced(m, Leads(m.lists.trig)), lim)
  {
    var n := Leads(m.lists.trig);
    var guests := m.lists.trig[..n];
    assert AllPlain(guests);
    SplicedIsGood(m, n);
    forall i | 0 <= i < |guests| ensures lim.depth(guests[i].task.stmt) == 0 {
      assert ActionFits(m.lists.trig[i], 0, lim);
    }
    assert FrameFits(guests, |m.stack|, lim);
  }

  /** A block on top of the last frame would have to have a depth that is left there. */
  lemma NoBlockAtTheEnd(m: Machine, lim: Limit)
    requires Fits(m, lim) && |m.stack| == DEPTH && lim.most <= DEPTH - 2 && Top(m).Some?
    ensures lim.depth(Top(m).value.stmt) == 0
  {
    assert FrameFits(m.stack[DEPTH - 1].actions, DEPTH - 1, lim);
  }

  lemma NeverShort<W(!new)>(c: Config<W>, time: nat, eval: Evaluator<W>, lim: Limit)
    requires Fits(c.m, lim) && Shallow(eval, lim) && lim.most <= DEPTH - 2
    ensures !Jams(c, time, eval)
  {
    if Jams(c, time, eval) {
      var t := Top(c.m).value;
      assert IsBlock(t.stmt) ==> lim.depth(t.stmt) > 0;
      if !Interrupted(c.m) {
        PoppedFits(c.m, lim);
        DeepOnBlock(Popped(c.m), time, t, eval(t, c.world, time));
      }
      NoBlockAtTheEnd(c.m, lim);
    }
  }

  lemma DeepOnBlock<W>(m: Machine, time: nat, t: Task, e: Effect<W>)
    requires GoodMachine(m) && m.stack != [] && Deep(m, time, t, e)
    ensures |m.stack| == DEPTH && IsBlock(t.stmt)
  {
    DeepOnlyAtTop(m, time, t, e);
    EvaluatedGood(m, time, t, e);
  }

  lemma TurnFits<W(!new)>(c: Config<W>, time: nat, eval: Evaluator<W>, lim: Limit, turn: Config<W> -> Config<W>, jams: Config<W> -> bool)
    requires Fits(c.m, lim) && Shallow(eval, lim) && lim.most <= DEPTH - 2 && Describes(turn, jams, time, eval)
    ensures Fits(turn(c).m, lim)
  {
    NeverShort(c, time, eval, lim);
    if c.m.stack == [] {
      assert turn(c) == Turn(c, time, eval);
    } else if c.m.stack[|c.m.stack| - 1].actions == [] {
      TurnContinues(c, time, eval, turn, jams);
      ContinuedFits(c, time, eval, lim);
    } else if Interrupted(c.m) {
      TurnSplices(c, time, eval, turn, jams);
      SplicedFits(c.m, lim);
    } else {
      TurnTakes(c, time, eval, turn, jams);
      TakenFits(c, time, eval, lim);
    }
  }

  lemma ContinuedFits<W(!new)>(c: Config<W>, time: nat, eval: Evaluator<W>, lim: Limit)
    requires Fits(c.m, lim) && Shallow(eval, lim) && lim.most <= DEPTH - 2
    requires c.m.stack != [] && c.m.stack[|c.m.stack| - 1].actions == []
    ensures if |c.m.stack| > 1 || c.m.lists.trig == [] then Fits(Machine(c.m.stack[..|c.m.stack| - 1], c.m.lists), lim)
            else Fits(Taken(c.(m := Stalled(c.m)), time, eval).m, lim)
  {
    if |c.m.stack| == 1 && c.m.lists.trig != [] {
      var x := c.(m := Stalled(c.m));
      StalledFits(c.m, lim);
      NeverShort(x, time, eval, lim);
      TakenFits(x, time, eval, lim);
    }
  }

  lemma {:induction false} StaysWithin<T(!new)>(step: T -> T, inside: T -> bool, x: T, n: nat)
    requires inside(x) && forall y :: inside(y) ==> inside(step(y))
    ensures inside(Iterated(step, x, n))
  {
    if n > 0 {
      StaysWithin(step, inside, x, n - 1);
    }
  }

  /** However long the loop runs, it is never short of a frame. */
  lemma NeverJams<W(!new)>(c: Config<W>, time: nat, eval: Evaluator<W>, lim: Limit, n: nat)
    requires Fits(c.m, lim) && Shallow(eval, lim) && lim.most <= DEPTH - 2
    ensures !Jams(Turns(c, time, eval, n), time, eval)
  {
    ghost var turn, jams := (c: Config<W>) => Turn(c, time, eval), (c: Config<W>) => Jams(c, time, eval);
    ghost var inside := (c: Config<W>) => Fits(c.m, lim);
    forall y | inside(y) ensures inside(turn(y)) {
      TurnFits(y, time, eval, lim, turn, jams);
    }
    StaysWithin(turn, inside, c, n);
    IteratedIsTurns(c, time, eval, turn, jams, n);
    NeverShort(Iterated(turn, c, n), time, eval, lim);
  }

  /** The loop of the scheduler, on lists that keep to a depth of at most 254: whatever happens, it is
      not aborted for want of a frame, and writes to no frame that is not there. */
  method RunShallow<W(!new)>(s: Scheduler<W>, ghost lim: Limit, fuel: nat) returns (status: Status)
    requires s.Sound() && !s.stopped && Shallow(s.eval, lim) && lim.most <= DEPTH - 2
    requires QueueFits(s.active, lim.most, lim) && ListsFit(s.lists, lim)
    modifies s
    ensures status in {Going, Stopped, OutOfFuel}
  {
    ghost var c, time, rs, end := s.Begun(), s.time, [], s.Idle();
    assert Fits(c.m, lim);
    status, rs, end := s.DoActions(fuel);
    if status in {TooDeep, Overrun} {
      ghost var n: nat :| Jams(Turns(c, time, s.eval, n), time, s.eval);
      NeverJams(c, time, s.eval, lim, n);
    }
  }

  // ---- the depth of statements ----

  function Deeper(m: nat, n: nat): nat {
    if m < n then n else m
  }

  function Nesting(s: Stmt): nat
    decreases s
  {
    match s
    case Initial(_, b) => 1 + Nesting(b)
    case Always(_, b) => 1 + Nesting(b)
    case Forever(_, b) => 1 + Nesting(b)
    case Repeat(_, _, b) => 1 + Nesting(b)
    case Begin(_, ss) => 1 + NestingAll(ss)
    case If(_, _, p, q) => 1 + Deeper(if p.Some? then Nesting(p.value) else 0, if q.Some? then Nesting(q.value) else 0)
    case While(_, _, p) => 1 + if p.Some? then Nesting(p.value) else 0
    case For(_, i, _, n, p) =>
      1 + Deeper(if i.Some? then Nesting(i.value) else 0,
                 Deeper(if n.Some? then Nesting(n.value) else 0, if p.Some? then Nesting(p.value) else 0))
    case Delay(_, _, p) => 1 + if p.Some? then Nesting(p.value) else 0
    case Case(_, _, items) => 1 + NestingItems(items)
    case _ => 0
  }

  function NestingAll(ss: seq<Stmt>): nat
    decreases ss
  {
    if ss == [] then 0 else Deeper(Nesting(ss[0]), NestingAll(ss[1..]))
  }

  function NestingItems(items: seq<CaseItem>): nat
    decreases items
  {
    if items == [] then 0
    else Deeper(if items[0].part.Some? then Nesting(items[0].part.value) else 0, NestingItems(items[1..]))
  }

  predicate Below(ss: seq<Stmt>, d: nat) {
    forall i :: 0 <= i < |ss| ==> Nesting(ss[i]) < d
  }

  lemma {:induction false} AllBelow(ss: seq<Stmt>)
    ensures Below(ss, 1 + NestingAll(ss))
  {
    if ss != [] {
      AllBelow(ss[1..]);
      forall i | 0 <= i < |ss| ensures Nesting(ss[i]) < 1 + NestingAll(ss) {
        assert i > 0 ==> ss[i] == ss[1..][i - 1];
      }
    }
  }

  lemma {:induction false} ChosenBelow<S>(m: Meaning<S>, subject: nat, items: seq<CaseItem>, store: S)
    ensures Below(FirstMatch(m, subject, items, store), 1 + NestingItems(items))
    ensures Below(Defaults(items), 1 + NestingItems(items))
  {
    if items != [] {
      ChosenBelow(m, subject, items[1..], store);
    }
  }

  lemma PartsBelow<S>(m: Meaning<S>, s: Stmt, w: World<S>)
    ensures Below(Parts(m, s, w).0, Nesting(s))
  {
    match s
    case Begin(_, ss) => AllBelow(ss);
    case Case(_, c, items) => ChosenBelow(m, c, items, w.out.store);
    case _ =>
  }

  lemma {:induction false} SetUpBelow(ss: seq<Stmt>, ctx: set<nat>, d: nat)
    requires Below(ss, d)
    ensures forall i :: 0 <= i < |SetUpAll(ss, ctx)| ==> Nesting(SetUpAll(ss, ctx)[i].stmt) < d
  {
    if ss != [] {
      SetUpBelow(ss[1..], ctx, d);
      assert Nesting(ss[0]) < d;
    }
  }

  /** The evaluator with delays keeps to the nesting depth of statements. */
  lemma ClockworkIsShallow<S(!new)>(m: Meaning<S>, most: nat)
    ensures Shallow(Timetables.Clockwork(m), Limit(Nesting, most))
  {
    forall t: Task, w: World<S>, now: nat ensures EffectFits(t, Timetables.Clockwork(m)(t, w, now), Limit(Nesting, most)) {
      if t.stmt.Delay? {
        SetUpBelow(PartList(t.stmt.part), t.ctx, Nesting(t.stmt));
      } else {
        PartsBelow(m, t.stmt, w);
        SetUpBelow(Parts(m, t.stmt, w).0, t.ctx, Nesting(t.stmt));
      }
    }
  }
}
