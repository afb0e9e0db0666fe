/** The scheduler proper: the event lists of the current slot, the stack of frames, and the loop
    that runs them. Every iteration is proved to be steps of the flat machine in Flat. */
module Scheduling {
  import opened Basics
  import opened Actions
  import opened Flat
  import opened Views

  /** Why an iteration ends: the loop goes on, the run was stopped, a block needs a frame beyond
      the last one (reported by the source), or triggered statements do (not checked there). */
  datatype Status = Going | Stopped | TooDeep | Overrun | OutOfFuel

  /** Append one statement, unless the list has it. */
  method AppendTask(q: seq<Action>, t: Task) returns (r: seq<Action>)
    ensures r == Appended(q, Plain(t))
  {
    for i := 0 to |q|
      invariant forall j :: 0 <= j < i && q[j].Plain? ==> q[j].task.stmt != t.stmt
    {
      if q[i].Plain? && q[i].task.stmt == t.stmt {
        return q;
      }
    }
    r := q + [Plain(t)];
  }

  method AppendTasks(q: seq<Action>, ts: seq<Task>) returns (r: seq<Action>)
    ensures r == AppendedAll(q, ts)
  {
    r := q;
    for i := 0 to |ts|
      invariant AppendedAll(r, ts[i..]) == AppendedAll(q, ts)
    {
      assert ts[i..][1..] == ts[i + 1..];
      r := AppendTask(r, ts[i]);
    }
  }

  /** Queue what is triggered, and wake what waits for a raised event, in the given order. */
  method Raise(q: seq<Action>, ws: seq<Waiter<Action>>, ts: seq<Trig>) returns (r: seq<Action>, left: seq<Waiter<Action>>)
    ensures r == RaisedActions(q, ws, ts) && left == StillAsleep(ws, ts)
  {
    r, left := q, ws;
    for i := 0 to |ts|
      invariant RaisedActions(r, left, ts[i..]) == RaisedActions(q, ws, ts)
      invariant StillAsleep(left, ts[i..]) == StillAsleep(ws, ts)
    {
      assert ts[i..][1..] == ts[i + 1..];
      match ts[i] {
        case Rouse(t) => r := AppendTask(r, t);
        case Wake(ev) => r, left := r + Woken(left, ev), Asleep(left, ev);
      }
    }
  }

  method ScheduleAll(m: map<nat, seq<Action>>, now: nat, ls: seq<Later>) returns (r: map<nat, seq<Action>>)
    ensures r == ScheduleActions(m, now, ls)
  {
    r := m;
    for i := 0 to |ls|
      invariant ScheduleActions(r, now, ls[i..]) == ScheduleActions(m, now, ls)
    {
      ScheduleNext(r, now, ls, i);
      r := ScheduleOne(r, now + ls[i].delay, ls[i].task);
    }
  }

  method ScheduleOne(m: map<nat, seq<Action>>, t: nat, task: Task) returns (r: map<nat, seq<Action>>)
    ensures r == m[t := Appended(ListAt(m, t), Plain(task))]
  {
    var q := AppendTask(ListAt(m, t), task);
    r := m[t := q];
  }

  lemma ScheduleNext(m: map<nat, seq<Action>>, now: nat, ls: seq<Later>, i: nat)
    requires i < |ls|
    ensures var t := now + ls[i].delay;
      ScheduleActions(m, now, ls[i..]) == ScheduleActions(m[t := Appended(ListAt(m, t), Plain(ls[i].task))], now, ls[i + 1..])
  {
    assert ls[i..][1..] == ls[i + 1..];
  }

  class Scheduler<W(!new)> {
    const eval: Evaluator<W>
    var time: nat
    var active: seq<Action>   // what the statement being evaluated has set up
    var lists: Lists          // the other event lists, the future slots, the waiting processes
    var world: W
    var stopped: bool

    constructor (eval: Evaluator<W>, world: W, lists: Lists)
      ensures this.eval == eval && this.world == world && this.lists == lists
      ensures active == [] && time == 0 && !stopped
    {
      this.eval, this.world, this.lists := eval, world, lists;
      time, active, stopped := 0, [], false;
    }

    /** The stack, of which frames 0 to sp are in use, with the lists. */
    ghost function Mach(acts: array<Frame>, sp: int): Machine
      requires -1 <= sp < acts.Length
      reads this, acts
    {
      Machine(acts[..sp + 1], lists)
    }

    ghost function Now(acts: array<Frame>, sp: int): Config<W>
      requires -1 <= sp < acts.Length
      reads this, acts
    {
      Config(Mach(acts, sp), world)
    }

    ghost function View(acts: array<Frame>, sp: int): State<W>
      requires -1 <= sp < acts.Length
      reads this, acts
    {
      ShowMachine(time, Mach(acts, sp), world, stopped)
    }

    /** What holds between iterations. */
    ghost predicate Valid(acts: array<Frame>, sp: int)
      reads this, acts
    {
      acts.Length == DEPTH && -1 <= sp < DEPTH && GoodMachine(Mach(acts, sp)) && active == []
    }

    /** Carry out the appends of an evaluation. */
    method Apply(e: Effect<W>)
      requires active == []
      modifies this
      ensures active == AppendedAll([], e.now) && lists == AbsorbLists(old(lists), time, e)
      ensures world == e.world && time == old(time) && stopped == old(stopped)
    {
      active := AppendTasks(active, e.now);
      var zdly := AppendTasks(lists.zdly, e.zdly);
      var nbau := AppendTasks(lists.nbau, e.nbau);
      var mon := AppendTasks(lists.mon, e.mon);
      var next := AppendTasks(lists.next, e.next);
      var trig, waiting := Raise(lists.trig, lists.waiting, e.trig);
      var future := ScheduleAll(lists.future, time, e.later);
      lists := Lists(trig, zdly, nbau, mon, next, future, waiting);
      world := e.world;
    }

    /** Purge a disabled block from the lists, then frame by frame from the stack. */
    method Purge(acts: array<Frame>, sp: int, blk: nat)
      requires 0 <= sp < acts.Length
      modifies this`active, this`lists, acts
      ensures active == Purged(old(active), blk) && lists == PurgeLists(old(lists), blk)
      ensures acts[..sp + 1] == PurgedFrames(old(acts[..sp + 1]), blk)
    {
      active, lists := Purged(active, blk), PurgeLists(lists, blk);
      ghost var stack := acts[..sp + 1];
      var i := 0;
      while i <= sp
        modifies acts
        invariant 0 <= i <= sp + 1
        invariant forall j :: 0 <= j < i ==> acts[j] == Frame(Purged(stack[j].actions, blk), stack[j].kind)
        invariant forall j :: i <= j <= sp ==> acts[j] == stack[j]
      {
        acts[i] := acts[i].(actions := Purged(acts[i].actions, blk));
        i := i + 1;
      }
      PurgedFramesAt(stack, blk);
    }

    /** What an evaluation set up goes before what is left of the frame it ran in, or into a
        frame of its own when a block set it up. */
    method Merge(acts: array<Frame>, sp: int, s: Stmt) returns (sp': int, deep: bool)
      requires 0 <= sp < DEPTH == acts.Length
      modifies this`active, acts
      ensures deep <==> |Merged(old(acts[..sp + 1]), old(active), s)| > DEPTH
      ensures !deep ==> sp <= sp' < DEPTH && active == []
      ensures !deep ==> acts[..sp' + 1] == Merged(old(acts[..sp + 1]), old(active), s)
    {
      sp', deep := sp, false;
      if active != [] {
        if IsBlock(s) {
          if acts[sp].actions != [] || !acts[sp].kind.Sequential? {
            sp' := sp + 1;
          }
          if sp' >= DEPTH {
            deep := true;
            return;
          }
          acts[sp'] := Frame(active, Sequential);
        } else {
          acts[sp] := acts[sp].(actions := active + acts[sp].actions);
        }
        active := [];
      }
    }

    /** A delay or an event: save the frames of the process, down to the fence. */
    method Park(acts: array<Frame>, sp: int, o: Outcome) returns (sp': int)
      requires 0 <= sp < acts.Length && GoodStack(acts[..sp + 1])
      modifies this`lists, acts
      ensures 0 <= sp' <= sp && Mach(acts, sp') == Left(old(Mach(acts, sp)), time, o)
    {
      sp' := sp;
      if o.Done? {
        return;
      }
      ghost var stack := acts[..sp + 1];
      var lsp := sp;
      if acts[lsp].actions == [] {
        lsp := lsp - 1;
      }
      var tsp := lsp;
      while tsp > 0 && acts[tsp].kind.Sequential?
        invariant tsp == lsp || 0 <= tsp < lsp
      {
        tsp := tsp - 1;
      }
      assert forall i :: 1 <= i <= sp ==> acts[i] == stack[i] && ProcessFrame(stack[i]);
      if tsp != lsp {
        var saved := Saved(acts[tsp + 1..lsp + 1]);
        assert saved.frames == stack[1..LastUsed(stack) + 1];
        match o {
          case Pause(d) =>
            if d == 0 {
              lists := lists.(zdly := lists.zdly + [saved]);
            } else {
              lists := lists.(future := lists.future[time + d := ListAt(lists.future, time + d) + [saved]]);
            }
          case WaitFor(ev) =>
            lists := lists.(waiting := lists.waiting + [Waiter(ev, saved)]);
        }
        var i := tsp + 1;
        while i <= lsp
          modifies acts
          invariant tsp + 1 <= i <= lsp + 1
          invariant acts[0] == stack[0]
        {
          acts[i] := acts[i].(actions := []);
          i := i + 1;
        }
        sp' := tsp;
      }
    }

    /** The appends, and the purge if the statement disabled a block. */
    method Settle(acts: array<Frame>, sp: int, t: Task, e: Effect<W>)
      requires 0 <= sp < acts.Length && active == []
      modifies this, acts
      ensures active == Made(t, e) && Mach(acts, sp) == Evaluated(old(Mach(acts, sp)), time, t, e)
      ensures world == e.world && time == old(time) && stopped == old(stopped)
    {
      Apply(e);
      if t.stmt.Disable? && e.disabled.Some? {
        Purge(acts, sp, e.disabled.value);
      }
    }

    /** What follows an evaluation that does not stop the run. */
    method Follow(acts: array<Frame>, sp: int, t: Task, e: Effect<W>) returns (sp': int, deep: bool)
      requires 0 <= sp < DEPTH == acts.Length && GoodMachine(Mach(acts, sp)) && active == []
      modifies this, acts
      ensures deep <==> Deep(old(Mach(acts, sp)), time, t, e)
      ensures !deep ==> 0 <= sp' < DEPTH && active == [] && Mach(acts, sp') == Executed(old(Mach(acts, sp)), time, t, e)
      ensures world == e.world && time == old(time) && stopped == old(stopped)
    {
      ghost var m := Mach(acts, sp);
      EvaluatedGood(m, time, t, e);
      Settle(acts, sp, t, e);
      sp', deep := Merge(acts, sp, t.stmt);
      if !deep {
        MergedGood(Evaluated(m, time, t, e).stack, Made(t, e), t.stmt);
        sp' := Park(acts, sp', e.outcome);
      }
    }

    /** Evaluate one statement, already removed from its frame, and deal with what it did. */
    method Execute(acts: array<Frame>, sp: int, t: Task) returns (sp': int, status: Status, ghost residue: bool)
      requires Valid(acts, sp) && 0 <= sp && !stopped
      modifies this, acts
      ensures status in {Going, Stopped, TooDeep} && (status == Stopped <==> stopped) && time == old(time)
      ensures status == Stopped <==> eval(t, old(world), time).stop
      ensures status == TooDeep <==> !eval(t, old(world), time).stop && Deep(old(Mach(acts, sp)), time, t, eval(t, old(world), time))
      ensures status == TooDeep ==> sp == DEPTH - 1
      ensures world == eval(t, old(world), time).world
      ensures status == Going ==> Valid(acts, sp') && 0 <= sp'
      ensures status == Going ==> Mach(acts, sp') == Executed(old(Mach(acts, sp)), time, t, eval(t, old(world), time))
      ensures status == Stopped ==> -1 <= sp' < DEPTH
      ensures status != TooDeep ==> View(acts, sp') == Exec(old(View(acts, sp)), t, sp >= 1, eval, residue)
    {
      sp', status, residue := sp, Going, false;
      var e := eval(t, world, time);
      ghost var m := Mach(acts, sp);
      if e.stop {
        AbsorbView(time, m.stack, m.lists, world, e);
        Apply(e);
        stopped, status := true, Stopped;
        return;
      }
      if Deep(m, time, t, e) {
        DeepOnlyAtTop(m, time, t, e);
      }
      var deep: bool;
      sp', deep := Follow(acts, sp, t, e);
      if deep {
        status := TooDeep;
        return;
      }
      ExecutedView(m, time, old(world), t, eval);
      residue := Residue(m, time, t, e);
    }

    /** The triggered statements up to the first waiting process get a frame of their own. */
    method Splice(acts: array<Frame>, sp: int) returns (sp': int)
      requires Valid(acts, sp) && 0 <= sp < DEPTH - 1 && !stopped && Splices(View(acts, sp))
      modifies this`lists, acts
      ensures Valid(acts, sp') && sp' == sp + 1
      ensures View(acts, sp') == Run(old(View(acts, sp)), eval, [false])
      ensures Mach(acts, sp') == Spliced(old(Mach(acts, sp)), Leads(old(lists.trig)))
    {
      OneStep(View(acts, sp), eval, false);
      sp' := sp + 1;
      var n := 1;
      while n < |lists.trig| && lists.trig[n].Plain?
        invariant 1 <= n <= |lists.trig| && AllPlain(lists.trig[..n])
      {
        n := n + 1;
      }
      LeadsIs(lists.trig, n);
      SpliceView(time, Mach(acts, sp), world, eval, n);
      ghost var stack := acts[..sp + 1];
      acts[sp'] := Frame(lists.trig[..n], Sequential);
      assert acts[..sp' + 1] == stack + [acts[sp']];
      lists := lists.(trig := lists.trig[n..]);
    }

    /** A saved stack comes back above the fence. */
    method Unwind(acts: array<Frame>, fs: seq<Frame>) returns (sp': int)
      requires Valid(acts, 0) && GoodAction(Saved(fs))
      modifies acts
      ensures Valid(acts, sp') && sp' == |fs|
      ensures View(acts, sp') == old(View(acts, 0)).(running := Join(fs))
      ensures acts[..sp' + 1] == [old(acts[0]).(kind := Fence)] + fs
    {
      ghost var bottom := acts[0];
      acts[0] := acts[0].(kind := Fence);
      sp' := 0;
      for i := 0 to |fs|
        modifies acts
        invariant sp' == i && acts[..sp' + 1] == [bottom] + fs[..i]
      {
        sp' := sp' + 1;
        acts[sp'] := fs[i];
      }
      assert acts[..sp' + 1][1..] == fs;
    }

    method PopHead(acts: array<Frame>, sp: int) returns (a: Action)
      requires Valid(acts, sp) && 0 <= sp && acts[sp].actions != []
      modifies acts
      ensures a == old(acts[sp].actions[0]) && Mach(acts, sp) == Popped(old(Mach(acts, sp)))
    {
      a := acts[sp].actions[0];
      acts[sp] := acts[sp].(actions := acts[sp].actions[1..]);
    }

    /** Take the first action of the top frame: a saved stack is unwound, a statement is run. */
    method TakeHead(acts: array<Frame>, sp: int) returns (sp': int, status: Status, ghost rs: seq<bool>)
      requires Valid(acts, sp) && 0 <= sp && !stopped && acts[sp].actions != []
      requires !Splices(View(acts, sp))
      modifies this, acts
      ensures status in {Going, Stopped, TooDeep} && (status == Stopped <==> stopped) && time == old(time)
      ensures status == Stopped <==> old(TopStops(Mach(acts, sp), time, world, eval))
      ensures status == TooDeep <==> old(TopDeep(Mach(acts, sp), time, world, eval))
      ensures status == TooDeep ==> sp == DEPTH - 1
      ensures status == Going ==> Valid(acts, sp') && 0 <= sp'
      ensures status == Going ==> Now(acts, sp') == Taken(old(Now(acts, sp)), time, eval)
      ensures status == Stopped ==> -1 <= sp' < DEPTH
      ensures status != TooDeep ==> View(acts, sp') == Run(old(View(acts, sp)), eval, rs) && |rs| == 1
    {
      match acts[sp].actions[0] {
        case Saved(fs) =>
          status := Going;
          assert Top(Mach(acts, sp)).None?;
          sp', rs := UnwindHead(acts, sp, fs);
        case Plain(t) =>
          TakenPlain(Now(acts, sp), time, eval, t);
          sp', status, rs := ExecuteHead(acts, sp, t);
      }
    }

    method UnwindHead(acts: array<Frame>, sp: int, fs: seq<Frame>) returns (sp': int, ghost rs: seq<bool>)
      requires Valid(acts, sp) && 0 <= sp && !stopped && acts[sp].actions != [] && acts[sp].actions[0] == Saved(fs)
      modifies acts
      ensures Valid(acts, sp') && 0 <= sp' && Now(acts, sp') == Taken(old(Now(acts, sp)), time, eval)
      ensures View(acts, sp') == Run(old(View(acts, sp)), eval, rs) && |rs| == 1
    {
      ghost var f := View(acts, sp);
      HeadStep(Mach(acts, sp), time, world, eval);
      var _ := PopHead(acts, sp);
      sp' := Unwind(acts, fs);
      rs := [false];
      OneStep(f, eval, false);
    }

    method ExecuteHead(acts: array<Frame>, sp: int, t: Task) returns (sp': int, status: Status, ghost rs: seq<bool>)
      requires Valid(acts, sp) && 0 <= sp && !stopped && acts[sp].actions != [] && acts[sp].actions[0] == Plain(t)
      requires !Splices(View(acts, sp))
      modifies this, acts
      ensures status in {Going, Stopped, TooDeep} && (status == Stopped <==> stopped) && time == old(time)
      ensures status == Stopped <==> eval(t, old(world), time).stop
      ensures status == TooDeep <==>
                !eval(t, old(world), time).stop && Deep(Popped(old(Mach(acts, sp))), time, t, eval(t, old(world), time))
      ensures status == TooDeep ==> sp == DEPTH - 1
      ensures status == Going ==> Valid(acts, sp') && 0 <= sp' && world == eval(t, old(world), time).world
      ensures status == Going ==>
                Mach(acts, sp') == Executed(Popped(old(Mach(acts, sp))), time, t, eval(t, old(world), time))
      ensures status == Stopped ==> -1 <= sp' < DEPTH
      ensures status != TooDeep ==> View(acts, sp') == Run(old(View(acts, sp)), eval, rs) && |rs| == 1
    {
      ghost var f, residue := View(acts, sp), false;
      HeadStep(Mach(acts, sp), time, world, eval);
      var _ := PopHead(acts, sp);
      sp', status, residue := Execute(acts, sp, t);
      rs := [residue];
      OneStep(f, eval, residue);
    }

    /** Nothing is left to run: the accumulated triggered events become the ready list. */
    method Stall(acts: array<Frame>) returns (ghost rs: seq<bool>)
      requires Valid(acts, 0) && !stopped && acts[0].actions == [] && lists.trig != []
      modifies this`lists, acts
      ensures Valid(acts, 0) && acts[0].actions == old(lists).trig && Mach(acts, 0) == Stalled(old(Mach(acts, 0)))
      ensures |rs| == 1 && View(acts, 0) == Run(old(View(acts, 0)), eval, rs)
      ensures !Splices(View(acts, 0))
    {
      ghost var f := View(acts, 0);
      acts[0], lists := acts[0].(actions := lists.trig), lists.(trig := []);
      assert acts[..1][1..] == [];
      assert View(acts, 0) == f.(ready := f.trig, trig := []);
      rs := [false];
      OneStep(f, eval, false);
    }

    /** One turn of the scheduler loop. Unless a frame is missing, it is exactly the flat steps
        rs, and it either makes one or drops an exhausted frame. */
    method Iterate(acts: array<Frame>, sp: int) returns (sp': int, status: Status, ghost rs: seq<bool>)
      requires Valid(acts, sp) && 0 <= sp && !stopped
      modifies this, acts
      ensures status in {Going, Stopped, TooDeep, Overrun} && (status == Stopped <==> stopped) && time == old(time)
      ensures status == Overrun <==> sp == DEPTH - 1 && old(acts[sp].actions != [] && Splices(View(acts, sp)))
      ensures status == TooDeep <==> old(!Splices(View(acts, sp)) && TopDeep(Mach(acts, sp), time, world, eval))
      ensures status == TooDeep ==> sp == DEPTH - 1
      ensures status == Going ==> Valid(acts, sp')
      ensures old(!Splices(View(acts, sp)) && Top(Mach(acts, sp)).Some?) ==>
                (status == Stopped <==> old(TopStops(Mach(acts, sp), time, world, eval)))
      ensures status == Going ==> Now(acts, sp') == Turn(old(Now(acts, sp)), time, eval)
      ensures status in {TooDeep, Overrun} <==> old(Jams(Now(acts, sp), time, eval))
      ensures status == Stopped ==> -1 <= sp' < DEPTH
      ensures status in {Going, Stopped} ==> View(acts, sp') == Run(old(View(acts, sp)), eval, rs)
      ensures status == Going ==> |rs| > 0 || sp' == sp - 1
      ensures status == Going && sp' == -1 ==> Finished(View(acts, sp'))
    {
      ghost var now := time;
      ghost var turn, jams := (c: Config<W>) => Turn(c, now, eval), (c: Config<W>) => Jams(c, now, eval);
      sp', status, rs := TakeTurn(acts, sp, turn, jams);
    }

    /** One turn, with what it does to the machine and its want of a frame as functions. */
    method TakeTurn(acts: array<Frame>, sp: int, ghost turn: Config<W> -> Config<W>, ghost jams: Config<W> -> bool)
      returns (sp': int, status: Status, ghost rs: seq<bool>)
      requires Valid(acts, sp) && 0 <= sp && !stopped && Describes(turn, jams, time, eval)
      modifies this, acts
      ensures status in {Going, Stopped, TooDeep, Overrun} && (status == Stopped <==> stopped) && time == old(time)
      ensures status == Overrun <==> sp == DEPTH - 1 && old(acts[sp].actions != [] && Splices(View(acts, sp)))
      ensures status == TooDeep <==> old(!Splices(View(acts, sp)) && TopDeep(Mach(acts, sp), time, world, eval))
      ensures status == TooDeep ==> sp == DEPTH - 1
      ensures status == Going ==> Valid(acts, sp')
      ensures old(!Splices(View(acts, sp)) && Top(Mach(acts, sp)).Some?) ==>
                (status == Stopped <==> old(TopStops(Mach(acts, sp), time, world, eval)))
      ensures status == Going ==> Now(acts, sp') == turn(old(Now(acts, sp)))
      ensures status in {TooDeep, Overrun} <==> jams(old(Now(acts, sp)))
      ensures status == Stopped ==> -1 <= sp' < DEPTH
      ensures status in {Going, Stopped} ==> View(acts, sp') == Run(old(View(acts, sp)), eval, rs)
      ensures status == Going ==> |rs| > 0 || sp' == sp - 1
      ensures status == Going && sp' == -1 ==> Finished(View(acts, sp'))
    {
      if acts[sp].actions == [] {
        sp', status, rs := Continue(acts, sp, turn, jams);
        return;
      }
      InterruptedIs(time, Mach(acts, sp), world, eval, turn, jams);
      if lists.trig != [] && lists.trig[0].Plain? && acts[sp].actions[0].Plain? && IsBlock(acts[sp].actions[0].task.stmt) {
        sp', status, rs := Interrupt(acts, sp, turn, jams);
        return;
      }
      TurnTakes(Now(acts, sp), time, eval, turn, jams);
      sp', status, rs := TakeHead(acts, sp);
    }

    /** Triggered statements go before the block on top, if there is a frame for them. */
    method Interrupt(acts: array<Frame>, sp: int, ghost turn: Config<W> -> Config<W>, ghost jams: Config<W> -> bool)
      returns (sp': int, status: Status, ghost rs: seq<bool>)
      requires Valid(acts, sp) && 0 <= sp && !stopped && Interrupted(Mach(acts, sp)) && Splices(View(acts, sp))
      requires Describes(turn, jams, time, eval)
      modifies this`lists, acts
      ensures status == if sp == DEPTH - 1 then Overrun else Going
      ensures status == Going ==> Valid(acts, sp') && sp' == sp + 1 && Now(acts, sp') == turn(old(Now(acts, sp)))
      ensures status == Going ==> |rs| == 1 && View(acts, sp') == Run(old(View(acts, sp)), eval, rs)
    {
      sp', status, rs := sp, Overrun, [];
      if sp + 1 < DEPTH {
        TurnSplices(Now(acts, sp), time, eval, turn, jams);
        sp' := Splice(acts, sp);
        status, rs := Going, [false];
      }
    }

    /** The top frame is exhausted: it is dropped, or the triggered events are next. */
    method Continue(acts: array<Frame>, sp: int, ghost turn: Config<W> -> Config<W>, ghost jams: Config<W> -> bool)
      returns (sp': int, status: Status, ghost rs: seq<bool>)
      requires Valid(acts, sp) && 0 <= sp && !stopped && acts[sp].actions == [] && Describes(turn, jams, time, eval)
      modifies this, acts
      ensures status in {Going, Stopped} && (status == Stopped <==> stopped) && time == old(time)
      ensures status == Going ==> Valid(acts, sp')
      ensures status == Stopped ==> -1 <= sp' < DEPTH
      ensures View(acts, sp') == Run(old(View(acts, sp)), eval, rs)
      ensures status == Going ==> Now(acts, sp') == turn(old(Now(acts, sp)))
      ensures !jams(old(Now(acts, sp)))
      ensures status == Going ==> |rs| > 0 || sp' == sp - 1
      ensures status == Going && sp' == -1 ==> Finished(View(acts, sp'))
    {
      TurnContinues(Now(acts, sp), time, eval, turn, jams);
      if sp > 0 || lists.trig == [] {
        sp', status, rs := sp - 1, Going, [];
        ExhaustedTop(acts[..sp + 1]);
        assert acts[..sp + 1][..sp] == acts[..sp];
      } else {
        sp', status, rs := Restart(acts);
      }
    }

    /** The triggered events are ready, and the first of them is taken. */
    method Restart(acts: array<Frame>) returns (sp': int, status: Status, ghost rs: seq<bool>)
      requires Valid(acts, 0) && !stopped && acts[0].actions == [] && lists.trig != []
      modifies this, acts
      ensures status in {Going, Stopped} && (status == Stopped <==> stopped) && time == old(time)
      ensures status == Going ==> Valid(acts, sp') && 0 <= sp' && |rs| > 0
      ensures status == Going ==>
                Now(acts, sp') == Taken(Config(Stalled(old(Mach(acts, 0))), old(world)), time, eval)
      ensures status == Stopped ==> -1 <= sp' < DEPTH
      ensures View(acts, sp') == Run(old(View(acts, 0)), eval, rs)
    {
      ghost var f := View(acts, 0);
      ghost var first := Stall(acts);
      sp', status, rs := TakeHead(acts, 0);
      RunConcat(f, eval, first, rs);
      rs := first + rs;
    }

    /** What the loop begins with: the active list above a fence. */
    ghost function Begun(): Config<W>
      reads this
    {
      Config(Machine([Frame(active, Fence)], lists), world)
    }

    /** The slot between two calls of the loop: what is active is ready, nothing is running. */
    ghost function Idle(): State<W>
      reads this
    {
      Show(time, [Frame(active, Fence)], lists, world, stopped)
    }

    ghost predicate Sound()
      reads this
    {
      GoodLists(lists) && GoodQueue(active)
    }

    /** The design is in the state that the flat machine has reached. */
    ghost predicate Reached(status: Status, end: State<W>)
      reads this
    {
      && (status == Going ==> end == Idle())
      && (status in {Going, Stopped, OutOfFuel} ==> end.time == time && end.world == world && end.stopped == stopped)
    }

    /** The first fuel turns of the scheduler loop, or all of them if there are fewer. However it
        ends, it is a run of the flat machine up to there; when it ends by itself nothing active
        and nothing triggered is left. */
    method DoActions(fuel: nat) returns (status: Status, ghost rs: seq<bool>, ghost end: State<W>)
      requires Sound() && !stopped
      modifies this
      ensures end == Run(old(Idle()), eval, rs) && Reached(status, end)
      ensures (status == Stopped <==> stopped) && time == old(time)
      ensures status == Going ==> Sound() && active == [] && Finished(end)
      ensures status in {TooDeep, Overrun} ==> exists n: nat :: Jams(Turns(old(Begun()), time, eval, n), time, eval)
    {
      ghost var c, now := Begun(), time;
      ghost var turn, jams := (c: Config<W>) => Turn(c, now, eval), (c: Config<W>) => Jams(c, now, eval);
      var acts := new Frame[DEPTH](_ => Frame([], Sequential));
      acts[0], active := Frame(active, Fence), [];
      assert acts[..1] == [Frame(old(active), Fence)];
      ghost var n;
      status, rs, end, n := Loop(acts, fuel, turn, jams);
      if status in {TooDeep, Overrun} {
        IteratedIsTurns(c, time, eval, turn, jams, n);
      }
    }

    /** The loop, with the turn of a machine and its want of a frame as functions. */
    method Loop(acts: array<Frame>, fuel: nat, ghost turn: Config<W> -> Config<W>, ghost jams: Config<W> -> bool)
      returns (status: Status, ghost rs: seq<bool>, ghost end: State<W>, ghost k: nat)
      requires Valid(acts, 0) && !stopped && Describes(turn, jams, time, eval)
      modifies this, acts
      ensures end == Run(old(View(acts, 0)), eval, rs) && Reached(status, end)
      ensures (status == Stopped <==> stopped) && time == old(time)
      ensures status == Going ==> Sound() && active == [] && Finished(end)
      ensures status in {TooDeep, Overrun} ==> jams(Iterated(turn, old(Now(acts, 0)), k))
    {
      var sp, n := 0, fuel;
      status, rs, end, k := Going, [], View(acts, sp), 0;
      ghost var f, c := end, Now(acts, sp);
      while sp >= 0
        invariant -1 <= sp && !stopped && status == Going
        invariant Valid(acts, sp) && time == old(time)
        invariant Now(acts, sp) == Iterated(turn, c, k)
        invariant end == View(acts, sp) == Run(f, eval, rs)
        invariant sp == -1 ==> Finished(end)
        decreases n
      {
        if n == 0 {
          status := OutOfFuel;
          return;
        }
        ghost var more;
        sp, status, more := TakeTurn(acts, sp, turn, jams);
        if status == Going || status == Stopped {
          RunConcat(f, eval, rs, more);
          rs, end, n := rs + more, View(acts, sp), n - 1;
        }
        if status != Going {
          return;
        }
        k := k + 1;
      }
    }

    /** One slot, for at most fuel rounds of at most fuel turns each: the active list, then region
        by region, until all five lists are empty. However it ends, what was done is in order,
        unless the slot was entered with triggered work only. */
    method EvalSlot(fuel: nat) returns (status: Status, ghost ms: seq<Move>, ghost end: State<W>)
      requires Sound() && !stopped
      modifies this
      ensures end == Play(old(Idle()), eval, ms) && Reached(status, end)
      ensures old(Usual()) ==> Ordered(old(Idle()), eval, ms)
      ensures forall i :: 0 <= i < |ms| ==> !ms[i].Advance?
      ensures old(Usual()) ==> RegionsInOrder(old(Idle()), eval, ms)
      ensures (status == Stopped <==> stopped) && time == old(time)
      ensures status == Going ==> Sound() && active == lists.zdly == lists.nbau == lists.mon == []
      ensures status == Going && old(Usual()) ==> lists.trig == []
    {
      ghost var f, usual := Idle(), Usual();
      AddNextActions();
      status, ms, end := Going, [AddNext], Idle();
      OneMove(f, eval, AddNext);
      var n := fuel;
      while active != [] || lists.zdly != [] || lists.nbau != [] || lists.mon != []
        invariant status == Going && !stopped && Sound() && time == old(time)
        invariant end == Idle() == Play(f, eval, ms)
        invariant usual ==> Ordered(f, eval, ms) && (lists.trig == [] || active != [])
        invariant forall i :: 0 <= i < |ms| ==> !ms[i].Advance?
        decreases n
      {
        if n == 0 {
          status := OutOfFuel;
          break;
        }
        ghost var more;
        status, more, end := EvalRegion(n);
        PlayConcat(f, eval, ms, more);
        ms, n := ms + more, n - 1;
        if status != Going {
          break;
        }
      }
      if usual {
        OrderedRegions(f, eval, ms);
      }
    }

    /** Nothing is triggered, or there is active work to do first. */
    ghost predicate Usual()
      reads this
    {
      lists.trig == [] || active != [] || lists.next != []
    }

    /** One round: the next region is promoted if nothing is active, and the loop is entered. */
    method EvalRegion(fuel: nat) returns (status: Status, ghost ms: seq<Move>, ghost end: State<W>)
      requires Sound() && !stopped && (active != [] || lists.zdly != [] || lists.nbau != [] || lists.mon != [])
      modifies this
      ensures end == Play(old(Idle()), eval, ms) && Reached(status, end)
      ensures old(lists.trig == [] || active != []) ==> Ordered(old(Idle()), eval, ms)
      ensures forall i :: 0 <= i < |ms| ==> !ms[i].Advance?
      ensures (status == Stopped <==> stopped) && time == old(time)
      ensures status == Going ==> Sound() && active == [] && lists.trig == []
    {
      ghost var f := Idle();
      ms := [];
      if active == [] {
        NextRegion();
        OneMove(f, eval, Promote);
        ms := [Promote];
      }
      ghost var g, rs := Idle(), [];
      status, rs, end := DoActions(fuel);
      RunIsPlay(g, eval, rs);
      PlayConcat(f, eval, ms, Takes(rs));
      ms := ms + Takes(rs);
    }

    method AddNextActions()
      requires Sound()
      modifies this`active, this`lists
      ensures Sound() && Idle() == Played(old(Idle()), eval, AddNext)
      ensures active == old(lists.next + active) && lists == old(lists).(next := [])
    {
      QueueConcat(lists.next, active);
      active, lists := lists.next + active, lists.(next := []);
    }

    method NextRegion()
      requires Sound() && active == []
      requires lists.zdly != [] || lists.nbau != [] || lists.mon != []
      modifies this`active, this`lists
      ensures Sound() && active != [] && Idle() == Promoted(old(Idle())) && lists.trig == old(lists.trig)
      ensures old(lists).zdly != [] ==> active == old(lists).zdly && lists == old(lists).(zdly := [])
      ensures old(lists).zdly == [] && old(lists).nbau != [] ==> active == old(lists).nbau && lists == old(lists).(nbau := [])
      ensures old(lists).zdly == [] && old(lists).nbau == [] ==> active == old(lists).mon && lists == old(lists).(mon := [])
    {
      if lists.zdly != [] {
        active, lists := lists.zdly, lists.(zdly := []);
      } else if lists.nbau != [] {
        active, lists := lists.nbau, lists.(nbau := []);
      } else {
        active, lists := lists.mon, lists.(mon := []);
      }
    }

    /** The current slot is dropped and the earliest of the others takes its place. */
    method NextSlot() returns (t: nat)
      requires Sound() && lists.future.Keys != {}
      modifies this
      ensures Sound() && Idle() == Played(old(Idle()), eval, Advance(t))
      ensures lists.trig == [] && stopped == old(stopped) && t in old(lists.future)
      ensures time == t && active == old(lists).future[t] && world == old(world)
      ensures lists == Lists([], [], [], [], old(lists).next, old(lists).future - {t}, old(lists).waiting)
      ensures forall u :: u in old(lists.future) ==> t <= u
    {
      EarliestExists(lists.future.Keys);
      t :| t in lists.future.Keys && forall u :: u in lists.future.Keys ==> t <= u;
      time, active := t, lists.future[t];
      ghost var was := lists.future;
      lists := Lists([], [], [], [], lists.next, lists.future - {t}, lists.waiting);
      assert Queues(was - {t}) == Queues(was) - {t};
    }

    /** The whole simulation, or the beginning of it: at most fuel slots of at most fuel rounds. However
        it ends, it is an ordered play of the flat machine, over slots of strictly increasing time;
        when it ends by itself no slot and no work is left. */
    method Simulate(fuel: nat) returns (status: Status, ghost ms: seq<Move>, ghost end: State<W>)
      requires Sound() && !stopped
      modifies this
      ensures end == Play(old(Idle()), eval, ms) && Reached(status, end)
      ensures old(Usual()) ==> Ordered(old(Idle()), eval, ms)
      ensures old(Usual()) ==> RegionsInOrder(old(Idle()), eval, ms)
      ensures old(Usual()) && Ahead(old(Idle())) ==> Increasing(Times(ms))
      ensures status == Stopped <==> stopped
      ensures status == Going && old(Usual()) ==> Complete(end)
    {
      ghost var f, usual := Idle(), Usual();
      var n := fuel;
      status, ms, end := EvalSlot(n);
      while status == Going && lists.future.Keys != {}
        invariant status == Stopped <==> stopped
        invariant end == Play(f, eval, ms) && Reached(status, end) && (usual ==> Ordered(f, eval, ms))
        invariant status == Going ==> Sound() && active == lists.zdly == lists.nbau == lists.mon == []
        invariant status == Going && usual ==> lists.trig == []
        decreases n
      {
        if n == 0 {
          status := OutOfFuel;
          break;
        }
        ghost var more;
        status, more, end := EvalNext(n);
        PlayConcat(f, eval, ms, more);
        ms, n := ms + more, n - 1;
      }
      if usual {
        OrderedRegions(f, eval, ms);
      }
      if usual && Ahead(f) {
        TimesIncrease(f, eval, ms);
      }
    }

    /** The next slot. */
    method EvalNext(fuel: nat) returns (status: Status, ghost ms: seq<Move>, ghost end: State<W>)
      requires Sound() && !stopped && lists.future.Keys != {}
      requires active == lists.zdly == lists.nbau == lists.mon == []
      modifies this
      ensures end == Play(old(Idle()), eval, ms) && Reached(status, end)
      ensures old(lists.trig) == [] ==> Ordered(old(Idle()), eval, ms)
      ensures status == Stopped <==> stopped
      ensures status == Going ==>
                Sound() && active == lists.zdly == lists.nbau == lists.mon == [] && lists.trig == []
    {
      ghost var f := Idle();
      var t := NextSlot();
      OneMove(f, eval, Advance(t));
      ghost var more;
      status, more, end := EvalSlot(fuel);
      PlayConcat(f, eval, [Advance(t)], more);
      ms := [Advance(t)] + more;
    }
  }

  /** The machine with the first action of its top frame taken off. */
  function Popped(m: Machine): Machine
    requires m.stack != [] && m.stack[|m.stack| - 1].actions != []
  {
    var n := |m.stack| - 1;
    Machine(m.stack[..n] + [m.stack[n].(actions := m.stack[n].actions[1..])], m.lists)
  }

  /** The first action of the top frame, when it is a statement. */
  function Top(m: Machine): Option<Task> {
    if m.stack == [] then None
    else
      var q := m.stack[|m.stack| - 1].actions;
      if q != [] && q[0].Plain? then Some(q[0].task) else None
  }

  /** The statement on top stops the run. */
  predicate TopStops<W>(m: Machine, time: nat, world: W, eval: Evaluator<W>) {
    Top(m).Some? && eval(Top(m).value, world, time).stop
  }

  /** The statement on top is a block that needs a frame more than there are. */
  predicate TopDeep<W>(m: Machine, time: nat, world: W, eval: Evaluator<W>) {
    Top(m).Some? &&
    var e := eval(Top(m).value, world, time);
    !e.stop && Deep(Popped(m), time, Top(m).value, e)
  }

  /** The machine after the statement on top has been run. */
  function Turned<W>(m: Machine, time: nat, world: W, eval: Evaluator<W>): Machine
    requires Top(m).Some?
  {
    Executed(Popped(m), time, Top(m).value, eval(Top(m).value, world, time))
  }

  /** A machine with the values of the design. */
  datatype Config<W> = Config(m: Machine, world: W)

  /** The number of statements before the first waiting process. */
  function Leads(q: seq<Action>): (n: nat)
    ensures n <= |q| && (n < |q| ==> q[n].Saved?) && forall i :: 0 <= i < n ==> q[i].Plain?
  {
    if q == [] || q[0].Saved? then 0 else 1 + Leads(q[1..])
  }

  /** A block is on top, and a triggered statement goes first. */
  predicate Interrupted(m: Machine) {
    m.lists.trig != [] && m.lists.trig[0].Plain? && Top(m).Some? && IsBlock(Top(m).value.stmt)
  }

  /** The next turn needs a frame that there is not. */
  predicate Jams<W>(c: Config<W>, time: nat, eval: Evaluator<W>) {
    if Interrupted(c.m) then |c.m.stack| == DEPTH else TopDeep(c.m, time, c.world, eval)
  }

  /** The first action of the top frame is run, unless that stops the run, or, if it is a saved stack,
      put above the fence. */
  function Taken<W>(c: Config<W>, time: nat, eval: Evaluator<W>): Config<W>
    requires c.m.stack != [] && c.m.stack[|c.m.stack| - 1].actions != []
  {
    match c.m.stack[|c.m.stack| - 1].actions[0]
    case Plain(t) =>
      if eval(t, c.world, time).stop then c
      else Config(Turned(c.m, time, c.world, eval), eval(t, c.world, time).world)
    case Saved(fs) => Config(Unwound(c.m, fs), c.world)
  }

  lemma TakenPlain<W>(c: Config<W>, time: nat, eval: Evaluator<W>, t: Task)
    requires c.m.stack != [] && c.m.stack[|c.m.stack| - 1].actions != []
    requires c.m.stack[|c.m.stack| - 1].actions[0] == Plain(t)
    ensures var e := eval(t, c.world, time);
      && (TopStops(c.m, time, c.world, eval) <==> e.stop)
      && (TopDeep(c.m, time, c.world, eval) <==> !e.stop && Deep(Popped(c.m), time, t, e))
      && (!e.stop ==> Taken(c, time, eval) == Config(Executed(Popped(c.m), time, t, e), e.world))
  {
  }

  function Unwound(m: Machine, fs: seq<Frame>): Machine
    requires m.stack != [] && m.stack[|m.stack| - 1].actions != []
  {
    var x := Popped(m);
    Machine([x.stack[0].(kind := Fence)] + fs, x.lists)
  }

  function Stalled(m: Machine): Machine
    requires |m.stack| == 1
  {
    Machine([m.stack[0].(actions := m.lists.trig)], m.lists.(trig := []))
  }

  /** One turn of the loop, as long as no frame is missing. */
  function Turn<W>(c: Config<W>, time: nat, eval: Evaluator<W>): Config<W> {
    var n := |c.m.stack|;
    if n == 0 then c
    else if c.m.stack[n - 1].actions == [] then
      if n > 1 || c.m.lists.trig == [] then c.(m := Machine(c.m.stack[..n - 1], c.m.lists))
      else Taken(c.(m := Stalled(c.m)), time, eval)
    else if Interrupted(c.m) then c.(m := Spliced(c.m, Leads(c.m.lists.trig)))
    else Taken(c, time, eval)
  }

  /** What these functions say is what a turn of the loop does, and when it is short of a frame. */
  ghost predicate Describes<W(!new)>(turn: Config<W> -> Config<W>, jams: Config<W> -> bool, time: nat, eval: Evaluator<W>) {
    && (forall c {:trigger Turn(c, time, eval)} :: turn(c) == Turn(c, time, eval))
    && (forall c {:trigger Jams(c, time, eval)} :: jams(c) <==> Jams(c, time, eval))
  }

  lemma TurnContinues<W(!new)>(c: Config<W>, time: nat, eval: Evaluator<W>, turn: Config<W> -> Config<W>, jams: Config<W> -> bool)
    requires Describes(turn, jams, time, eval) && c.m.stack != [] && c.m.stack[|c.m.stack| - 1].actions == []
    ensures !jams(c)
    ensures var n := |c.m.stack|;
      turn(c) == if n > 1 || c.m.lists.trig == [] then c.(m := Machine(c.m.stack[..n - 1], c.m.lists))
                 else Taken(c.(m := Stalled(c.m)), time, eval)
  {
    assert turn(c) == Turn(c, time, eval) && jams(c) == Jams(c, time, eval);
  }

  lemma TurnSplices<W(!new)>(c: Config<W>, time: nat, eval: Evaluator<W>, turn: Config<W> -> Config<W>, jams: Config<W> -> bool)
    requires Describes(turn, jams, time, eval) && Interrupted(c.m)
    ensures turn(c) == c.(m := Spliced(c.m, Leads(c.m.lists.trig)))
  {
    assert turn(c) == Turn(c, time, eval);
  }

  lemma TurnTakes<W(!new)>(c: Config<W>, time: nat, eval: Evaluator<W>, turn: Config<W> -> Config<W>, jams: Config<W> -> bool)
    requires c.m.stack != [] && c.m.stack[|c.m.stack| - 1].actions != [] && !Interrupted(c.m)
    requires Describes(turn, jams, time, eval)
    ensures turn(c) == Taken(c, time, eval)
    ensures jams(c) <==> TopDeep(c.m, time, c.world, eval)
  {
    assert turn(c) == Turn(c, time, eval) && jams(c) == Jams(c, time, eval);
  }

  /** The test of the loop is the one of the flat machine. */
  lemma InterruptedIs<W(!new)>(time: nat, m: Machine, world: W, eval: Evaluator<W>,
                               turn: Config<W> -> Config<W>, jams: Config<W> -> bool)
    requires GoodStack(m.stack) && m.stack != [] && m.stack[|m.stack| - 1].actions != []
    requires Describes(turn, jams, time, eval)
    ensures Interrupted(m) <==> Splices(ShowMachine(time, m, world, false))
    ensures Interrupted(m) ==> (jams(Config(m, world)) <==> |m.stack| == DEPTH)
  {
    assert jams(Config(m, world)) == Jams(Config(m, world), time, eval);
    HeadOfStack(ShowMachine(time, m, world, false), m.stack);
  }

  function Iterated<T>(step: T -> T, x: T, n: nat): T {
    if n == 0 then x else step(Iterated(step, x, n - 1))
  }

  lemma {:induction false} IteratedIsTurns<W(!new)>(c: Config<W>, time: nat, eval: Evaluator<W>,
                                                    turn: Config<W> -> Config<W>, jams: Config<W> -> bool, n: nat)
    requires Describes(turn, jams, time, eval)
    ensures Iterated(turn, c, n) == Turns(c, time, eval, n)
    ensures jams(Iterated(turn, c, n)) <==> Jams(Turns(c, time, eval, n), time, eval)
  {
    if n > 0 {
      IteratedIsTurns(c, time, eval, turn, jams, n - 1);
    }
  }

  function Turns<W>(c: Config<W>, time: nat, eval: Evaluator<W>, n: nat): Config<W> {
    if n == 0 then c else Turn(Turns(c, time, eval, n - 1), time, eval)
  }

  lemma {:induction false} EarliestExists(ts: set<nat>)
    requires ts != {}
    ensures exists t :: t in ts && forall u :: u in ts ==> t <= u
  {
    var t :| t in ts;
    if ts != {t} {
      EarliestExists(ts - {t});
      var s :| s in ts - {t} && forall u :: u in ts - {t} ==> s <= u;
      var least := if s < t then s else t;
      assert least in ts && forall u :: u in ts ==> least <= u by {
        forall u | u in ts ensures least <= u {
          assert u == t || u in ts - {t};
        }
      }
    } else {
      assert forall u :: u in ts ==> t <= u;
    }
  }

  function Spliced(m: Machine, n: nat): Machine
    requires n <= |m.lists.trig|
  {
    Machine(m.stack + [Frame(m.lists.trig[..n], Sequential)], m.lists.(trig := m.lists.trig[n..]))
  }

  lemma SpliceView<W>(time: nat, m: Machine, world: W, eval: Evaluator<W>, n: nat)
    requires m.stack != [] && |m.stack| < DEPTH && GoodMachine(m) && n <= |m.lists.trig| && AllPlain(m.lists.trig[..n])
    requires n < |m.lists.trig| ==> m.lists.trig[n].Saved?
    requires Splices(ShowMachine(time, m, world, false))
    ensures GoodMachine(Spliced(m, n))
    ensures ShowMachine(time, Spliced(m, n), world, false) == Step(ShowMachine(time, m, world, false), eval, false)
  {
    LeadingView(m.lists.trig, n);
    RunningPush(m.stack, Frame(m.lists.trig[..n], Sequential));
    SplicedIsGood(m, n);
  }

  lemma LeadsIs(q: seq<Action>, n: nat)
    requires n <= |q| && AllPlain(q[..n]) && (n < |q| ==> q[n].Saved?)
    ensures Leads(q) == n
  {
    assert forall i :: 0 <= i < n ==> q[..n][i] == q[i];
  }

  lemma SplicedIsGood(m: Machine, n: nat)
    requires m.stack != [] && |m.stack| < DEPTH && GoodMachine(m) && n <= |m.lists.trig| && AllPlain(m.lists.trig[..n])
    ensures GoodMachine(Spliced(m, n))
  {
  }

  lemma OneStep<W>(f: State<W>, eval: Evaluator<W>, residue: bool)
    ensures Run(f, eval, [residue]) == Step(f, eval, residue)
  {
    assert Run(f, eval, [residue]) == Run(Step(f, eval, residue), eval, [residue][1..]);
  }

  /** The action on top of the stack is the one the flat machine would take. */
  lemma HeadOfStack<W>(f: State<W>, stack: seq<Frame>)
    requires GoodStack(stack) && stack != [] && f.running == Running(stack) && f.ready == Ready(stack)
    requires stack[|stack| - 1].actions != []
    ensures var a := stack[|stack| - 1].actions[0];
            Head(f) == (if a.Plain? then Some(a.task) else None)
  {
    if |stack| > 1 {
      RunningTop(stack);
      assert ProcessFrame(stack[|stack| - 1]);
    }
  }

  /** Frames run out only when all of them are in use. */
  lemma DeepOnlyAtTop<W>(m: Machine, time: nat, t: Task, e: Effect<W>)
    requires GoodMachine(m) && m.stack != [] && Deep(m, time, t, e)
    ensures |m.stack| == DEPTH
  {
  }

  /** Dropping an exhausted frame changes nothing. */
  lemma ExhaustedTop(stack: seq<Frame>)
    requires stack != [] && stack[|stack| - 1].actions == []
    ensures Running(stack[..|stack| - 1]) == Running(stack) && Ready(stack[..|stack| - 1]) == Ready(stack)
  {
    if |stack| > 1 {
      RunningTop(stack);
    }
  }

  /** What the flat machine does with the action on top of the stack. */
  lemma HeadStep<W>(m: Machine, time: nat, world: W, eval: Evaluator<W>)
    requires GoodMachine(m) && m.stack != [] && m.stack[|m.stack| - 1].actions != []
    requires !Splices(ShowMachine(time, m, world, false))
    ensures GoodMachine(Popped(m))
    ensures match m.stack[|m.stack| - 1].actions[0]
      case Plain(t) =>
        forall residue :: Step(ShowMachine(time, m, world, false), eval, residue)
                       == Exec(ShowMachine(time, Popped(m), world, false), t, |m.stack| > 1, eval, residue)
      case Saved(fs) =>
        && |m.stack| == 1 && GoodAction(Saved(fs))
        && forall residue :: Step(ShowMachine(time, m, world, false), eval, residue)
                          == ShowMachine(time, Popped(m), world, false).(running := Join(fs))
  {
    TailOfStack(m.stack, Popped(m).stack);
  }

  /** Taking the first action of the top frame off the stack. */
  lemma TailOfStack(stack: seq<Frame>, left: seq<Frame>)
    requires GoodStack(stack) && stack != [] && stack[|stack| - 1].actions != []
    requires var top := stack[|stack| - 1]; left == stack[..|stack| - 1] + [top.(actions := top.actions[1..])]
    ensures GoodStack(left)
    ensures |stack| > 1 ==>
              && stack[|stack| - 1].actions[0].Plain?
              && Running(stack) == [stack[|stack| - 1].actions[0].task] + Running(left) && Ready(left) == Ready(stack)
    ensures |stack| == 1 ==>
              && Running(stack) == Running(left) == [] && GoodAction(stack[0].actions[0])
              && Ready(stack) == [ItemOf(stack[0].actions[0])] + Ready(left)
  {
    if |stack| > 1 {
      TailOfProcess(stack, left);
    }
  }

  lemma TailOfProcess(stack: seq<Frame>, left: seq<Frame>)
    requires GoodStack(stack) && |stack| > 1 && stack[|stack| - 1].actions != []
    requires var top := stack[|stack| - 1]; left == stack[..|stack| - 1] + [top.(actions := top.actions[1..])]
    ensures GoodStack(left) && stack[|stack| - 1].actions[0].Plain?
    ensures Running(stack) == [stack[|stack| - 1].actions[0].task] + Running(left) && Ready(left) == Ready(stack)
  {
    var top := stack[|stack| - 1];
    assert ProcessFrame(top);
    RunningTop(stack);
    RunningPush(stack[..|stack| - 1], top.(actions := top.actions[1..]));
    assert Tasks(top.actions) == [top.actions[0].task] + Tasks(top.actions[1..]);
  }

  lemma {:induction false} PurgedFramesAt(fs: seq<Frame>, blk: nat)
    ensures forall i :: 0 <= i < |fs| ==> PurgedFrames(fs, blk)[i] == Frame(Purged(fs[i].actions, blk), fs[i].kind)
  {
    if fs != [] {
      PurgedFramesAt(fs[1..], blk);
    }
  }
}
