/** Processes whose statements take the same course whatever the values of the design: blocks,
    delays, plain statements and always loops. Their evaluations have a timetable, and every run,
    with whatever else is in the design, keeps it entry by entry. */
module Timetables {
  import opened Basics
  import opened Actions
  import opened Flat
  import opened Timing
  import opened Unfolding

  /** What an evaluation sets up, and how long it holds up what follows. */
  datatype Piece = Piece(made: seq<Task>, delay: nat)

  /** What is known of the evaluation of a task, if it is always the same. */
  type Program = Task -> Option<Piece>

  predicate Timed(t: Task, prog: Program, c: Cast) {
    c.mine(t) && prog(t).Some?
  }

  predicate AllTimed(ts: seq<Task>, prog: Program, c: Cast) {
    forall i :: 0 <= i < |ts| ==> Timed(ts[i], prog, c)
  }

  /** Timed tasks do what the program says; triggered ones run to their end at once; no block around
      a task of the process is disabled. */
  predicate AsKnown<W>(t: Task, e: Effect<W>, prog: Program, c: Cast) {
    && (Timed(t, prog, c) ==>
          var piece := prog(t).value;
          && Fresh([], e.now) == piece.made && AllTimed(piece.made, prog, c)
          && (e.outcome == Pause(piece.delay) || (e.outcome.Done? && piece.delay == 0)))
    && (c.guest(t) ==> e.now == [] && e.outcome.Done?)
  }

  ghost predicate Follows<W(!new)>(eval: Evaluator<W>, prog: Program, c: Cast) {
    forall t: Task, w: W, now: nat :: AsKnown(t, eval(t, w, now), prog, c)
  }

  ghost predicate Uncut(c: Cast) {
    forall t: Task, b: nat :: c.mine(t) && c.cut(b) ==> b !in t.ctx
  }

  // ---- the timetable ----

  /** A process of timed statements on its own clock. */
  datatype Post = Post(todo: seq<Task>, clock: nat)

  function Next(p: Post, prog: Program): Post {
    if p.todo == [] || prog(p.todo[0]).None? then p
    else Post(prog(p.todo[0]).value.made + p.todo[1..], p.clock + prog(p.todo[0]).value.delay)
  }

  /** Where it stands after n evaluations. */
  function Stand(p: Post, prog: Program, n: nat): Post
    decreases n
  {
    if n == 0 then p else Stand(Next(p, prog), prog, n - 1)
  }

  lemma {:induction false} StandAdd(p: Post, prog: Program, m: nat, n: nat)
    ensures Stand(p, prog, m + n) == Stand(Stand(p, prog, m), prog, n)
    decreases m
  {
    if m > 0 {
      StandAdd(Next(p, prog), prog, m - 1, n);
    }
  }

  lemma {:induction false} StandWaits(p: Post, prog: Program, m: nat, n: nat)
    requires m <= n
    ensures Stand(p, prog, m).clock <= Stand(p, prog, n).clock
    ensures Stand(p, prog, m).todo == [] ==> Stand(p, prog, n).todo == []
    decreases n - m
  {
    if m < n {
      StandAdd(p, prog, m, 1);
      StandWaits(p, prog, m + 1, n);
    }
  }

  /** The log agrees with the timetable: its i-th entry is the i-th evaluation due. */
  predicate Keeps(log: seq<Entry>, p: Post, prog: Program) {
    forall i :: 0 <= i < |log| ==>
      var q := Stand(p, prog, i);
      q.todo != [] && log[i] == Entry(q.todo[0], q.clock)
  }

  // ---- one turn of the process ----

  function Own(ts: seq<Task>, c: Cast): seq<Task> {
    if ts == [] then [] else (if c.mine(ts[0]) then [ts[0]] else []) + Own(ts[1..], c)
  }

  lemma {:induction false} OwnConcat(p: seq<Task>, q: seq<Task>, c: Cast)
    ensures Own(p + q, c) == Own(p, c) + Own(q, c)
  {
    if p == [] {
      assert p + q == q;
    } else {
      assert (p + q)[0] == p[0] && (p + q)[1..] == p[1..] + q;
      OwnConcat(p[1..], q, c);
    }
  }

  lemma {:induction false} OwnOutside(ts: seq<Task>, b: nat, c: Cast)
    requires Uncut(c) && c.cut(b)
    ensures Own(Outside(ts, b), c) == Own(ts, c)
  {
    if ts != [] {
      OwnOutside(ts[1..], b, c);
      var one := if b in ts[0].ctx then [] else [ts[0]];
      OwnConcat(one, Outside(ts[1..], b), c);
      assert one != [] ==> one[1..] == [];
    }
  }

  lemma {:induction false} OwnAll(ts: seq<Task>, prog: Program, c: Cast)
    requires AllTimed(ts, prog, c)
    ensures Own(ts, c) == ts
  {
    if ts != [] {
      assert Timed(ts[0], prog, c);
      OwnAll(ts[1..], prog, c);
    }
  }

  lemma {:induction false} OwnNone(ts: seq<Task>, c: Cast)
    requires Free(ts, c)
    ensures Own(ts, c) == []
  {
    if ts != [] {
      OwnNone(ts[1..], c);
    }
  }

  /** Every task of the process is timed or a guest. */
  predicate Known(p: Process, prog: Program, c: Cast) {
    !p.asleep && KnownTasks(p.todo, prog, c)
  }

  predicate KnownTasks(ts: seq<Task>, prog: Program, c: Cast) {
    forall i :: 0 <= i < |ts| ==> Timed(ts[i], prog, c) || (c.guest(ts[i]) && !c.mine(ts[i]))
  }

  lemma {:induction false} KnownOutside(ts: seq<Task>, b: nat, prog: Program, c: Cast)
    requires KnownTasks(ts, prog, c)
    ensures KnownTasks(Outside(ts, b), prog, c)
  {
    if ts != [] {
      KnownOutside(ts[1..], b, prog, c);
    }
  }

  function PostOf(p: Process, c: Cast): Post {
    Post(Own(p.todo, c), p.clock)
  }

  lemma EvaluateKnown<W(!new)>(p: Process, eval: Evaluator<W>, w: W, prog: Program, c: Cast)
    requires Closed(eval, c) && Follows(eval, prog, c) && Uncut(c) && Known(p, prog, c) && p.todo != []
    ensures var q := Turned(p, eval, Evaluate(w));
      Known(q, prog, c) && PostOf(q, c) == if c.mine(p.todo[0]) then Next(PostOf(p, c), prog) else PostOf(p, c)
  {
    var t, rest := p.todo[0], p.todo[1..];
    var e := eval(t, w, p.clock);
    var made := Fresh([], e.now);
    assert AsKnown(t, e, prog, c) && Minds(t, e, c);
    assert Timed(t, prog, c) || (c.guest(t) && !c.mine(t));
    assert AllTimed(made, prog, c);
    OwnAll(made, prog, c);
    OwnConcat(made, rest, c);
    assert Own(p.todo, c) == (if c.mine(t) then [t] else []) + Own(rest, c);
    if t.stmt.Disable? && e.disabled.Some? {
      CutKnown(made, rest, e.disabled.value, prog, c);
    }
  }

  lemma CutKnown(made: seq<Task>, rest: seq<Task>, b: nat, prog: Program, c: Cast)
    requires Uncut(c) && c.cut(b) && KnownTasks(made, prog, c) && KnownTasks(rest, prog, c)
    ensures Own(Outside(made, b) + Outside(rest, b), c) == Own(made, c) + Own(rest, c)
    ensures KnownTasks(Outside(made, b) + Outside(rest, b), prog, c)
  {
    OwnOutside(made, b, c);
    OwnOutside(rest, b, c);
    OwnConcat(Outside(made, b), Outside(rest, b), c);
    KnownOutside(made, b, prog, c);
    KnownOutside(rest, b, prog, c);
  }

  lemma TurnKnown<W(!new)>(p: Process, eval: Evaluator<W>, u: Turn<W>, prog: Program, c: Cast)
    requires Closed(eval, c) && Follows(eval, prog, c) && Uncut(c) && Known(p, prog, c) && MayTake(p, u, c)
    ensures Known(Turned(p, eval, u), prog, c)
    ensures if Noted(p, u, c) == [] then PostOf(Turned(p, eval, u), c) == PostOf(p, c)
            else PostOf(p, c).todo != [] && Noted(p, u, c) == [Entry(PostOf(p, c).todo[0], p.clock)]
                 && PostOf(Turned(p, eval, u), c) == Next(PostOf(p, c), prog)
  {
    match u
    case Evaluate(w) => EvaluateKnown(p, eval, w, prog, c);
    case Resume(_) => assert false;
    case Admit(gs) =>
      OwnNone(gs, c);
      OwnConcat(gs, p.todo, c);
    case Cut(b) =>
      OwnOutside(p.todo, b, c);
      KnownOutside(p.todo, b, prog, c);
  }

  lemma {:induction false} AloneKeeps<W(!new)>(p: Process, eval: Evaluator<W>, us: seq<Turn<W>>, prog: Program, c: Cast)
    requires Closed(eval, c) && Follows(eval, prog, c) && Uncut(c) && Known(p, prog, c) && Lawful(p, eval, us, c)
    ensures Keeps(AloneLog(p, eval, us, c), PostOf(p, c), prog)
    ensures Known(Alone(p, eval, us), prog, c)
    ensures PostOf(Alone(p, eval, us), c) == Stand(PostOf(p, c), prog, |AloneLog(p, eval, us, c)|)
    decreases us
  {
    if us != [] {
      var q := Turned(p, eval, us[0]);
      TurnKnown(p, eval, us[0], prog, c);
      AloneKeeps(q, eval, us[1..], prog, c);
      var tail := AloneLog(q, eval, us[1..], c);
      if Noted(p, us[0], c) == [] {
        assert AloneLog(p, eval, us, c) == tail;
      } else {
        KeepsLater(Noted(p, us[0], c)[0], tail, PostOf(p, c), prog);
        assert Noted(p, us[0], c) == [Noted(p, us[0], c)[0]];
      }
    }
  }

  lemma KeepsLater(x: Entry, tail: seq<Entry>, p: Post, prog: Program)
    requires p.todo != [] && x == Entry(p.todo[0], p.clock) && Keeps(tail, Next(p, prog), prog)
    ensures Keeps([x] + tail, p, prog)
  {
    forall i | 0 <= i < |[x] + tail|
      ensures var q := Stand(p, prog, i); q.todo != [] && ([x] + tail)[i] == Entry(q.todo[0], q.clock)
    {
      if i > 0 {
        assert ([x] + tail)[i] == tail[i - 1];
      }
    }
  }

  // ---- whole runs ----

  /** In every run, the process's i-th evaluation is the i-th one due, at the time it is due; nothing
      due before the present is outstanding; and when nothing is left to do, nothing is left of the
      process. */
  lemma RunKeepsTimetable<W(!new)>(f: State<W>, eval: Evaluator<W>, ms: seq<Move>, p: Process, prog: Program, c: Cast)
    requires Closed(eval, c) && Follows(eval, prog, c) && Uncut(c) && Known(p, prog, c)
    requires Ahead(f) && Ordered(f, eval, ms) && Located(f, p, c)
    ensures var log := Log(f, eval, ms, c); var g := Play(f, eval, ms);
      && Keeps(log, PostOf(p, c), prog)
      && (!g.stopped ==>
            var q := Stand(PostOf(p, c), prog, |log|);
            && (q.todo == [] || g.time <= q.clock)
            && (Complete(g) ==> q.todo == []))
  {
    var us := RunsAlone(f, eval, ms, p, c);
    AloneKeeps(p, eval, us, prog, c);
    var g, r := Play(f, eval, ms), Alone(p, eval, us);
    if Over(r, c) {
      OwnNone(r.todo, c);
    }
  }

  // ---- an evaluator that knows delays ----

  /** The unfolding evaluator, with delays. */
  function Clockwork<S>(m: Meaning<S>): Evaluator<World<S>> {
    (t: Task, w: World<S>, now: nat) =>
      Effect(NextWorld(m, t, w), Queued(m, t, w), [], [], [], [], [], [], None,
             if t.stmt.Delay? then Pause(t.stmt.delay) else Done, false)
  }

  function Queued<S>(m: Meaning<S>, t: Task, w: World<S>): seq<Task> {
    if t.stmt.Delay? then SetUpAll(PartList(t.stmt.part), t.ctx) else NowTasks(m, t, w)
  }

  /** Statements that take the same course whatever the values of the design. */
  predicate Straight(s: Stmt)
    decreases s
  {
    match s
    case Prim(_) => true
    case Initial(_, b) => Straight(b)
    case Always(_, b) => Straight(b) && !b.Prim?
    case Begin(_, ss) => forall i :: 0 <= i < |ss| ==> Straight(ss[i])
    case Delay(_, _, p) => p.Some? ==> Straight(p.value)
    case _ => false
  }

  function StraightParts(t: Task): seq<Task> {
    match t.stmt
    case Initial(_, b) => SetUpAll([b], t.ctx)
    case Always(_, b) => SetUpAll([b], t.ctx) + [t]
    case Begin(_, ss) => SetUpAll(ss, t.ctx)
    case Delay(_, _, p) => SetUpAll(PartList(p), t.ctx)
    case _ => []
  }

  // ---- the processes around a block ----

  /** Whether block b occurs in s. */
  predicate Names(s: Stmt, b: nat)
    decreases s
  {
    match s
    case Initial(_, x) => Names(x, b)
    case Always(_, x) => Names(x, b)
    case Forever(_, x) => Names(x, b)
    case Repeat(_, _, x) => Names(x, b)
    case Begin(id, ss) => id == b || exists i :: 0 <= i < |ss| && Names(ss[i], b)
    case If(_, _, p, q) => (p.Some? && Names(p.value, b)) || (q.Some? && Names(q.value, b))
    case While(_, _, p) => p.Some? && Names(p.value, b)
    case For(_, i, _, n, p) =>
      (i.Some? && Names(i.value, b)) || (n.Some? && Names(n.value, b)) || (p.Some? && Names(p.value, b))
    case Delay(_, _, p) => p.Some? && Names(p.value, b)
    case Case(_, _, items) => exists i :: 0 <= i < |items| && items[i].part.Some? && Names(items[i].part.value, b)
    case _ => false
  }

  /** A process belongs to block b when it is in its context or leads to it. */
  predicate Belongs(t: Task, b: nat) {
    b in t.ctx || Names(t.stmt, b)
  }

  /** The process of block b, in a design where nothing is triggered or disabled. */
  function Around(b: nat): Cast {
    Cast((t: Task) => Belongs(t, b), (t: Task) => false, (k: nat) => false)
  }

  /** The course of a straight statement within block b, or of a process with b as its body. */
  function Course(b: nat): Program {
    (t: Task) =>
      if Straight(t.stmt) && (b in t.ctx || Wraps(t.stmt, b))
      then Some(Piece(Fresh([], StraightParts(t)), if t.stmt.Delay? then t.stmt.delay else 0))
      else None
  }

  predicate Wraps(s: Stmt, b: nat) {
    (s.Initial? || s.Always?) && s.body.Begin? && s.body.id == b
  }

  predicate Unnamed(ss: seq<Stmt>, b: nat) {
    forall i :: 0 <= i < |ss| ==> !Names(ss[i], b)
  }

  lemma {:induction false} SetUpStrange(ss: seq<Stmt>, ctx: set<nat>, b: nat)
    requires Unnamed(ss, b) && b !in ctx
    ensures Free(SetUpAll(ss, ctx), Around(b))
  {
    if ss != [] {
      assert !Names(ss[0], b);
      SetUpStrange(ss[1..], ctx, b);
    }
  }

  lemma {:induction false} FirstUnnamed<S>(m: Meaning<S>, subject: nat, items: seq<CaseItem>, store: S, b: nat)
    requires forall i :: 0 <= i < |items| ==> Unnamed(PartList(items[i].part), b)
    ensures Unnamed(FirstMatch(m, subject, items, store), b)
  {
    if items != [] {
      FirstUnnamed(m, subject, items[1..], store, b);
    }
  }

  lemma {:induction false} DefaultsUnnamed(items: seq<CaseItem>, b: nat)
    requires forall i :: 0 <= i < |items| ==> Unnamed(PartList(items[i].part), b)
    ensures Unnamed(Defaults(items), b)
  {
    if items != [] {
      DefaultsUnnamed(items[1..], b);
    }
  }

  lemma PartsUnnamed<S>(m: Meaning<S>, s: Stmt, w: World<S>, b: nat)
    requires !Names(s, b)
    ensures Unnamed(Parts(m, s, w).0, b)
  {
    if s.Case? {
      forall i | 0 <= i < |s.items| ensures Unnamed(PartList(s.items[i].part), b) {
        assert s.items[i].part.Some? ==> !Names(s.items[i].part.value, b);
      }
      FirstUnnamed(m, s.subject, s.items, w.out.store, b);
      DefaultsUnnamed(s.items, b);
    }
  }

  /** Statements outside the block set nothing of it up. */
  lemma StrangersStayAway<S>(m: Meaning<S>, t: Task, w: World<S>, b: nat)
    requires !Belongs(t, b)
    ensures Free(Queued(m, t, w), Around(b))
  {
    if t.stmt.Delay? {
      SetUpStrange(PartList(t.stmt.part), t.ctx, b);
    } else {
      PartsUnnamed(m, t.stmt, w, b);
      SetUpStrange(Parts(m, t.stmt, w).0, t.ctx, b);
    }
  }

  lemma {:induction false} SetUpStraight(ss: seq<Stmt>, ctx: set<nat>, b: nat)
    requires forall i :: 0 <= i < |ss| ==> Straight(ss[i]) && (b in ctx || (ss[i].Begin? && ss[i].id == b))
    ensures AllTimed(SetUpAll(ss, ctx), Course(b), Around(b))
  {
    if ss != [] {
      assert Straight(ss[0]);
      SetUpStraight(ss[1..], ctx, b);
    }
  }

  lemma {:induction false} FreshTimed(acc: seq<Task>, ts: seq<Task>, prog: Program, c: Cast)
    requires AllTimed(acc, prog, c) && AllTimed(ts, prog, c)
    ensures AllTimed(Fresh(acc, ts), prog, c)
    decreases ts
  {
    if ts != [] {
      FreshTimed(acc, ts[1..], prog, c);
      FreshTimed(acc + [ts[0]], ts[1..], prog, c);
    }
  }

  lemma QueuedIsParts<S>(m: Meaning<S>, t: Task, w: World<S>)
    requires Straight(t.stmt)
    ensures Queued(m, t, w) == StraightParts(t)
  {
    if !t.stmt.Delay? && !t.stmt.Always? {
      assert SetUpAll(Parts(m, t.stmt, w).0, t.ctx) + [] == SetUpAll(Parts(m, t.stmt, w).0, t.ctx);
    }
  }

  lemma PartsTimed(t: Task, b: nat)
    requires Timed(t, Course(b), Around(b))
    ensures AllTimed(StraightParts(t), Course(b), Around(b))
  {
    match t.stmt
    case Initial(_, x) => SetUpStraight([x], t.ctx, b);
    case Always(_, x) => SetUpStraight([x], t.ctx, b);
    case Begin(_, ss) => SetUpStraight(ss, t.ctx, b);
    case Delay(_, _, p) => SetUpStraight(PartList(p), t.ctx, b);
    case Prim(_) =>
  }

  /** The evaluator with delays meets what the theorems about whole runs ask of an evaluator. */
  lemma ClockworkConforms<S(!new)>(m: Meaning<S>, b: nat)
    ensures Closed(Clockwork(m), Around(b)) && Follows(Clockwork(m), Course(b), Around(b)) && Uncut(Around(b))
  {
    forall t: Task, w: World<S>, now: nat
      ensures Minds(t, Clockwork(m)(t, w, now), Around(b))
      ensures AsKnown(t, Clockwork(m)(t, w, now), Course(b), Around(b))
    {
      if !Belongs(t, b) {
        StrangersStayAway(m, t, w, b);
      } else if Timed(t, Course(b), Around(b)) {
        QueuedIsParts(m, t, w);
        PartsTimed(t, b);
        FreshTimed([], StraightParts(t), Course(b), Around(b));
      }
    }
  }

  // ---- a design at its start ----

  /** All processes ready at time 0. */
  function Start<W>(q: seq<Task>, w: W): State<W> {
    State(0, [], Ones(q), [], [], [], [], [], map[], [], w, false)
  }

  lemma {:induction false} OneAmong(q: seq<Task>, k: nat, c: Cast)
    requires k < |q| && c.mine(q[k]) && forall i :: 0 <= i < |q| && i != k ==> !c.mine(q[i])
    ensures SpottedIn(Ones(q), c) == There([q[k]])
  {
    assert Ones(q)[1..] == Ones(q[1..]);
    assert c.mine([q[k]][0]);
    if k == 0 {
      OnesFree(q[1..], c);
    } else {
      OneAmong(q[1..], k - 1, c);
    }
  }

  lemma StartLocated<W>(q: seq<Task>, w: W, k: nat, c: Cast)
    requires k < |q| && c.mine(q[k]) && IsBlock(q[k].stmt) && forall i :: 0 <= i < |q| && i != k ==> !c.mine(q[i])
    ensures Located(Start(q, w), Process([q[k]], 0, false), c)
  {
    OneAmong(q, k, c);
    assert c.mine([q[k]][0]);
    forall i | 0 <= i < |q| ensures Fit(Ones(q)[i], c) {
    }
  }

  // ---- processes of any statements ----

  predicate AllEvaluate<W>(us: seq<Turn<W>>) {
    forall i :: 0 <= i < |us| ==> us[i].Evaluate?
  }

  lemma NoGuests<W>(u: Turn<W>, b: nat)
    ensures u.Admit? && u.guests != [] ==> exists i :: 0 <= i < |u.guests| && !Around(b).guest(u.guests[i])
  {
    assert u.Admit? && u.guests != [] ==> !Around(b).guest(u.guests[0]);
  }

  /** With this evaluator nothing is triggered, disabled or waited for. */
  lemma {:induction false} OnlyEvaluations<S(!new)>(m: Meaning<S>, p: Process, us: seq<Turn<World<S>>>, b: nat)
    requires Lawful(p, Clockwork(m), us, Around(b)) && !p.asleep
    ensures AllEvaluate(us) && !Alone(p, Clockwork(m), us).asleep
    decreases us
  {
    if us != [] {
      assert MayTake(p, us[0], Around(b));
      NoGuests(us[0], b);
      OnlyEvaluations(m, Turned(p, Clockwork(m), us[0]), us[1..], b);
    }
  }

  /** A process with any statements in it, conditions and loops included, among any others: in every
      run its evaluations are those it makes alone, each at its start time plus the delays before it,
      and the process is at its end when the design has nothing left to do. */
  lemma ProcessRunsAlone<S(!new)>(m: Meaning<S>, q: seq<Task>, w: World<S>, k: nat, b: nat, ms: seq<Move>) returns (us: seq<Turn<World<S>>>)
    requires k < |q| && Belongs(q[k], b) && IsBlock(q[k].stmt)
    requires forall i :: 0 <= i < |q| && i != k ==> !Belongs(q[i], b)
    requires Ordered(Start(q, w), Clockwork(m), ms)
    ensures var eval := Clockwork(m); var p := Process([q[k]], 0, false); var g := Play(Start(q, w), eval, ms);
      && AllEvaluate(us) && Lawful(p, eval, us, Around(b))
      && Log(Start(q, w), eval, ms, Around(b)) == AloneLog(p, eval, us, Around(b))
      && Alone(p, eval, us).clock == Waited(p, eval, us)
      && (!g.stopped ==> Over(Alone(p, eval, us), Around(b)) || (g.time <= Waited(p, eval, us) && !Complete(g)))
  {
    var eval, p, c := Clockwork(m), Process([q[k]], 0, false), Around(b);
    ClockworkConforms(m, b);
    StartLocated(q, w, k, c);
    us := RunsAlone(Start(q, w), eval, ms, p, c);
    OnlyEvaluations(m, p, us, b);
    ClockIsDelays(p, eval, us);
  }
}
