/** A design that needs more frames than there are: blocks nested 255 deep, each with a statement
    left to run, and a continuous assignment triggered just before one block more. */
module Overruns {
  import opened Basics
  import opened Actions
  import opened Flat
  import opened Views
  import opened Scheduling

  const LEFT := Prim(2)
  const TRIGGER := Prim(1)
  const ASSIGN := Prim(3)

  /** The n-th block from the inside; the innermost triggers, and then starts a block. */
  function Nest(n: nat): Stmt {
    if n == 0 then Begin(0, [LEFT]) else if n == 1 then Begin(1, [TRIGGER, Nest(0)]) else Begin(n, [Nest(n - 1), LEFT])
  }

  function Of(s: Stmt): Task {
    Task(s, {})
  }

  /** Blocks set up their statements, the trigger triggers the assignment; nothing else happens. */
  function Program(t: Task, w: nat, now: nat): Effect<nat> {
    Effect(w, if t.stmt.Begin? then seq(|t.stmt.stmts|, i requires 0 <= i < |t.stmt.stmts| => Of(t.stmt.stmts[i])) else [],
           [], if t.stmt == TRIGGER then [Rouse(Of(ASSIGN))] else [], [], [], [], [], None, Done, false)
  }

  const EMPTY := Lists([], [], [], [], [], map[], [])

  /** A frame with a statement left. */
  const USED := Frame([Plain(Of(LEFT))], Sequential)

  /** The frames when i blocks have been entered: each has its statement left, and the topmost is
      about to start the next block. */
  function Nested(i: nat): Machine
    requires i <= 254
  {
    if i == 0 then Machine([Frame([Plain(Of(Nest(255 - i)))], Fence)], EMPTY)
    else Machine([Frame([], Fence)] + seq(i - 1, _ => USED) + [Frame([Plain(Of(Nest(255 - i))), Plain(Of(LEFT))], Sequential)], EMPTY)
  }

  /** All 256 frames are in use, and the statement on top triggers. */
  function Full(): Machine {
    Machine([Frame([], Fence)] + seq(254, _ => USED) + [Frame([Plain(Of(TRIGGER)), Plain(Of(Nest(0)))], Sequential)], EMPTY)
  }

  /** The assignment is triggered, and the block is next. */
  function Loaded(): Machine {
    Machine([Frame([], Fence)] + seq(254, _ => USED) + [Frame([Plain(Of(Nest(0)))], Sequential)],
            EMPTY.(trig := [Plain(Of(ASSIGN))]))
  }

  /** Starting a block of two statements above a frame that is not to be reused. */
  lemma BlockStarts(below: seq<Frame>, rest: seq<Action>, kind: Kind, n: nat, a: Stmt, b: Stmt, time: nat, w: nat)
    requires a != b && |below| < 255 && (rest != [] || kind.Fence?)
    ensures var m := Machine(below + [Frame([Plain(Of(Begin(n, [a, b])))] + rest, kind)], EMPTY);
            && Top(m) == Some(Of(Begin(n, [a, b]))) && !TopStops(m, time, w, Program) && !TopDeep(m, time, w, Program)
            && Turned(m, time, w, Program)
               == Machine(below + [Frame(rest, kind)] + [Frame([Plain(Of(a)), Plain(Of(b))], Sequential)], EMPTY)
  {
    var s := Begin(n, [a, b]);
    var m := Machine(below + [Frame([Plain(Of(s))] + rest, kind)], EMPTY);
    var e := Program(Of(s), w, time);
    assert e.now == [Of(a), Of(b)];
    SetsUpTwo(a, b);
    var x := Popped(m);
    assert ([Plain(Of(s))] + rest)[1..] == rest;
    assert x == Machine(below + [Frame(rest, kind)], EMPTY);
    assert Evaluated(x, time, Of(s), e) == x;
  }

  lemma SetsUpTwo(a: Stmt, b: Stmt)
    requires a != b
    ensures AppendedAll([], [Of(a), Of(b)]) == [Plain(Of(a)), Plain(Of(b))]
  {
    var x, y := Plain(Of(a)), Plain(Of(b));
    assert [Of(a), Of(b)][1..] == [Of(b)] && [Of(b)][1..] == [];
    assert Appended([], x) == [x];
    assert Appended([x], y) == [x] + [y];
    assert AppendedAll([x] + [y], []) == [x, y];
    assert AppendedAll([x], [Of(b)]) == AppendedAll(Appended([x], Plain([Of(b)][0])), [Of(b)][1..]);
  }

  /** The two statements of the n-th block. */
  function First(n: nat): Stmt
    requires n > 0
  {
    if n == 1 then TRIGGER else Nest(n - 1)
  }

  function Second(n: nat): Stmt {
    if n == 1 then Nest(0) else LEFT
  }

  lemma NestIs(n: nat)
    requires n > 0
    ensures Nest(n) == Begin(n, [First(n), Second(n)]) && First(n) != Second(n)
  {
  }

  function After(i: nat): Machine
    requires i <= 254
  {
    if i < 254 then Nested(i + 1) else Full()
  }

  /** The turn of a machine that is about to start a block enters the block. */
  predicate Enters(m: Machine, next: Machine, time: nat, w: nat) {
    && Top(m).Some? && !TopStops(m, time, w, Program) && !TopDeep(m, time, w, Program)
    && Turned(m, time, w, Program) == next
  }

  lemma NestTurns(i: nat, time: nat, w: nat)
    requires i <= 254
    ensures Enters(Nested(i), After(i), time, w)
  {
    if i == 0 {
      OuterTurns(i, 255 - i, time, w);
    } else {
      InnerTurns(i, 255 - i, time, w);
    }
  }

  lemma OuterTurns(i: nat, n: nat, time: nat, w: nat)
    requires i == 0 && n == 255 - i
    ensures Enters(Nested(i), After(i), time, w)
  {
    var s := Plain(Of(Nest(n)));
    NestIs(n);
    BlockStarts([], [], Fence, n, First(n), Second(n), time, w);
    assert [s] + [] == [s];
    assert Nested(i).stack == [] + [Frame([s] + [], Fence)];
    AfterIs(i, Frame([Plain(Of(First(n))), Plain(Of(Second(n)))], Sequential));
  }

  lemma InnerTurns(i: nat, n: nat, time: nat, w: nat)
    requires 0 < i <= 254 && n == 255 - i
    ensures Enters(Nested(i), After(i), time, w)
  {
    var s, below := Plain(Of(Nest(n))), [Frame([], Fence)] + seq(i - 1, _ => USED);
    NestIs(n);
    BlockStarts(below, [Plain(Of(LEFT))], Sequential, n, First(n), Second(n), time, w);
    assert [s] + [Plain(Of(LEFT))] == [s, Plain(Of(LEFT))];
    assert Nested(i).stack == below + [Frame([s] + [Plain(Of(LEFT))], Sequential)];
    AfterIs(i, Frame([Plain(Of(First(n))), Plain(Of(Second(n)))], Sequential));
  }

  lemma AfterIs(i: nat, made: Frame)
    requires i <= 254 && made == Frame([Plain(Of(First(255 - i))), Plain(Of(Second(255 - i)))], Sequential)
    ensures After(i).lists == EMPTY
    ensures After(i).stack == (if i == 0 then [Frame([], Fence)] else [Frame([], Fence)] + seq(i - 1, _ => USED) + [USED]) + [made]
  {
    if i > 0 {
      assert seq(i - 1, _ => USED) + [USED] == seq(i, _ => USED);
    } else {
      assert seq(0, _ => USED) == [];
    }
  }

  lemma FullTurns(time: nat, w: nat)
    ensures var m := Full();
            && Top(m).Some? && !TopStops(m, time, w, Program) && !TopDeep(m, time, w, Program)
            && Turned(m, time, w, Program) == Loaded()
  {
    var m := Full();
    var e := Program(Of(TRIGGER), w, time);
    var x := Popped(m);
    var q := [Plain(Of(TRIGGER)), Plain(Of(Nest(0)))];
    assert q[1..] == [Plain(Of(Nest(0)))];
    assert x == Machine(Loaded().stack, EMPTY);
    assert e.trig[1..] == [];
    assert RaisedActions([], [], e.trig) == [Plain(Of(ASSIGN))];
    assert StillAsleep<Action>([], e.trig) == [];
    assert AbsorbLists(EMPTY, time, e) == Loaded().lists;
    assert Evaluated(x, time, Of(TRIGGER), e) == Loaded();
    assert Merged(Loaded().stack, [], TRIGGER) == Loaded().stack;
  }

  lemma LoadedSplices(time: nat, w: nat)
    ensures Splices(ShowMachine(time, Loaded(), w, false))
  {
    var m, f := Loaded(), ShowMachine(time, Loaded(), w, false);
    assert GoodStack(m.stack);
    HeadOfStack(f, m.stack);
    assert f.trig == Queue([Plain(Of(ASSIGN))]) == [One(Of(ASSIGN))];
  }

  /** One turn that runs the statement on top. */
  method RunTop(s: Scheduler<nat>, acts: array<Frame>, sp: int, ghost m: Machine) returns (sp': int)
    requires s.Valid(acts, sp) && 0 <= sp && !s.stopped && s.eval == Program && m == s.Mach(acts, sp)
    requires m.lists.trig == [] && Top(m).Some?
    requires !TopStops(m, s.time, s.world, Program) && !TopDeep(m, s.time, s.world, Program)
    modifies s, acts
    ensures s.Valid(acts, sp') && !s.stopped && s.Mach(acts, sp') == Turned(m, old(s.time), old(s.world), Program)
  {
    var status;
    ghost var rs;
    NotSpliced(s.time, m, s.world);
    sp', status, rs := s.Iterate(acts, sp);
  }

  /** Enter all 255 blocks. */
  method EnterBlocks() returns (s: Scheduler<nat>, acts: array<Frame>, sp: int)
    ensures fresh(s) && fresh(acts)
    ensures s.Valid(acts, sp) && s.Mach(acts, sp) == Full() && !s.stopped && s.eval == Program
  {
    s := new Scheduler<nat>(Program, 0, EMPTY);
    acts := new Frame[DEPTH](_ => USED);
    acts[0] := Frame([Plain(Of(Nest(255)))], Fence);
    sp := 0;
    assert acts[..1] == Nested(0).stack;
    for i := 0 to 255
      invariant s.Valid(acts, sp) && s.Mach(acts, sp) == (if i < 255 then Nested(i) else Full())
      invariant !s.stopped && s.eval == Program
    {
      NestTurns(i, s.time, s.world);
      assert |Nested(i).stack| > 0;
      sp := RunTop(s, acts, sp, Nested(i));
    }
  }

  /** The scheduler loop on that design asks for a frame after the last one, without a check. */
  method FramesRunOut() returns (status: Status)
    ensures status == Overrun
  {
    var s, acts, sp := EnterBlocks();
    FullTurns(s.time, s.world);
    assert |Full().stack| > 0;
    sp := RunTop(s, acts, sp, Full());
    status := LastTurn(s, acts, sp);
  }

  method LastTurn(s: Scheduler<nat>, acts: array<Frame>, sp: int) returns (status: Status)
    requires s.Valid(acts, sp) && !s.stopped && s.Mach(acts, sp) == Loaded()
    modifies s, acts
    ensures status == Overrun
  {
    LoadedSplices(s.time, s.world);
    ghost var stack := acts[..sp + 1];
    assert |stack| == DEPTH && stack[sp] == acts[sp] && stack[255].actions == [Plain(Of(Nest(0)))];
    ghost var rs, end;
    end, status, rs := s.Iterate(acts, sp);
  }

  lemma NotSpliced(time: nat, m: Machine, w: nat)
    requires m.lists.trig == []
    ensures !Splices(ShowMachine(time, m, w, false))
  {
  }
}
