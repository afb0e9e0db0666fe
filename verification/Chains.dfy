/** Chains of delayed statements, run once or for ever, among any other processes: every statement
    is evaluated once a round, at the start of the round plus the delays before it. */
module Chains {
  import opened Basics
  import opened Actions
  import opened Flat
  import opened Timing
  import opened Unfolding
  import opened Timetables
  import opened Scheduling

  datatype Link = Link(delayId: nat, delay: nat, id: nat)

  /** Wait and run, wait and run. */
  function Chain(links: seq<Link>): (r: seq<Stmt>)
    ensures |r| == |links|
    ensures forall i :: 0 <= i < |links| ==> r[i] == Delay(links[i].delayId, links[i].delay, Some(Prim(links[i].id)))
  {
    seq(|links|, i requires 0 <= i < |links| => Delay(links[i].delayId, links[i].delay, Some(Prim(links[i].id))))
  }

  function Elapsed(links: seq<Link>): nat {
    if links == [] then 0 else links[0].delay + Elapsed(links[1..])
  }

  predicate Distinct(links: seq<Link>) {
    forall i, j :: 0 <= i < j < |links| ==> links[i].delayId != links[j].delayId
  }

  function Wait(x: Link, b: nat): Task {
    Task(Delay(x.delayId, x.delay, Some(Prim(x.id))), {b})
  }

  function Act(x: Link, b: nat): Task {
    Task(Prim(x.id), {b})
  }

  function Block(links: seq<Link>, b: nat): Task {
    Task(Begin(b, Chain(links)), {b})
  }

  /** A process whose body is the chain, and what it queues behind the body. */
  predicate Runs(head: Task, links: seq<Link>, b: nat) {
    (head.stmt.Initial? || head.stmt.Always?) && head.stmt.body == Begin(b, Chain(links)) && head.ctx == {}
  }

  function Again(head: Task): seq<Task> {
    if head.stmt.Always? then [head] else []
  }

  function Links(links: seq<Link>, b: nat): seq<Task> {
    seq(|links|, i requires 0 <= i < |links| => Wait(links[i], b))
  }

  /** The number of evaluations in a round. */
  function Length(links: seq<Link>): nat {
    2 * |links| + 2
  }

  /** The place of the i-th evaluation of round r among all. */
  function Nth(links: seq<Link>, r: nat, i: nat): nat {
    r * Length(links) + i
  }

  /** The time at which round r starts. */
  function RoundStart(links: seq<Link>, r: nat): nat {
    r * Elapsed(links)
  }

  /** The i-th evaluation of a round that starts at time t. */
  function Due(head: Task, links: seq<Link>, b: nat, t: nat, i: nat): Entry
    requires i < Length(links)
  {
    if i == 0 then Entry(head, t)
    else if i == 1 then Entry(Block(links, b), t)
    else
      var k := (i - 2) / 2;
      if i % 2 == 0 then Entry(Wait(links[k], b), t + Elapsed(links[..k]))
      else Entry(Act(links[k], b), t + Elapsed(links[..k + 1]))
  }

  // ---- the timetable of a chain ----

  lemma {:induction false} ElapsedNext(links: seq<Link>, k: nat)
    requires k < |links|
    ensures Elapsed(links[..k + 1]) == Elapsed(links[..k]) + links[k].delay
  {
    if k == 0 {
      assert links[..1] == [links[0]] && [links[0]][1..] == [];
    } else {
      assert links[..k + 1][1..] == links[1..][..k] && links[..k][1..] == links[1..][..k - 1];
      ElapsedNext(links[1..], k - 1);
    }
  }

  lemma {:induction false} SetUpChain(links: seq<Link>, b: nat)
    ensures SetUpAll(Chain(links), {b}) == Links(links, b)
  {
    if links != [] {
      assert Chain(links)[1..] == Chain(links[1..]);
      assert Links(links, b)[1..] == Links(links[1..], b);
      SetUpChain(links[1..], b);
      assert Links(links, b) == [Links(links, b)[0]] + Links(links, b)[1..];
    }
  }

  lemma FreshOne(t: Task)
    ensures Fresh([], [t]) == [t]
  {
    assert [] + [t] == [t];
    FreshIsAll([], [t]);
  }

  /** What a program must know to run the chain. */
  predicate Walks(prog: Program, head: Task, links: seq<Link>, b: nat) {
    && prog(head) == Some(Piece([Block(links, b)] + Again(head), 0))
    && prog(Block(links, b)) == Some(Piece(Links(links, b), 0))
    && forall x :: x in links ==>
         prog(Wait(x, b)) == Some(Piece([Act(x, b)], x.delay)) && prog(Act(x, b)) == Some(Piece([], 0))
  }

  lemma HeadCourse(head: Task, links: seq<Link>, b: nat)
    requires Runs(head, links, b) && Straight(head.stmt)
    ensures Course(b)(head) == Some(Piece([Block(links, b)] + Again(head), 0))
  {
    var s := head.stmt.body;
    assert [s][1..] == [];
    assert {} + {b} == {b};
    assert SetUpAll([s], {}) == SetUp(s, {}) + SetUpAll([], {}) == [Block(links, b)];
    var made := StraightParts(head);
    assert made == [Block(links, b)] + Again(head);
    assert [] + made == made;
    FreshIsAll([], made);
  }

  lemma ChainIsStraight(links: seq<Link>, b: nat)
    ensures Straight(Begin(b, Chain(links)))
  {
    forall i | 0 <= i < |links| ensures Straight(Chain(links)[i]) {
      assert Straight(Prim(links[i].id));
    }
  }

  lemma LinksFresh(links: seq<Link>, b: nat)
    requires Distinct(links)
    ensures Fresh([], Links(links, b)) == Links(links, b)
  {
    assert [] + Links(links, b) == Links(links, b);
    FreshIsAll([], Links(links, b));
  }

  lemma BlockCourse(links: seq<Link>, b: nat)
    requires Distinct(links)
    ensures Course(b)(Block(links, b)) == Some(Piece(Links(links, b), 0))
  {
    ChainIsStraight(links, b);
    SetUpChain(links, b);
    LinksFresh(links, b);
  }

  lemma LinkCourse(x: Link, b: nat)
    ensures Course(b)(Wait(x, b)) == Some(Piece([Act(x, b)], x.delay)) && Course(b)(Act(x, b)) == Some(Piece([], 0))
  {
    var s := Prim(x.id);
    assert [s][1..] == [] && Straight(s) && Straight(Wait(x, b).stmt);
    assert SetUpAll([s], {b}) == SetUp(s, {b}) + SetUpAll([], {b}) == [Act(x, b)];
    FreshOne(Act(x, b));
  }

  lemma CourseWalks(head: Task, links: seq<Link>, b: nat)
    requires Runs(head, links, b) && Distinct(links)
    ensures Walks(Course(b), head, links, b) && Straight(head.stmt)
  {
    ChainIsStraight(links, b);
    HeadCourse(head, links, b);
    BlockCourse(links, b);
    forall x | x in links
      ensures Course(b)(Wait(x, b)) == Some(Piece([Act(x, b)], x.delay)) && Course(b)(Act(x, b)) == Some(Piece([], 0))
    {
      LinkCourse(x, b);
    }
  }

  lemma NextIs(t: Task, rest: seq<Task>, clock: nat, prog: Program)
    requires prog(t).Some?
    ensures Next(Post([t] + rest, clock), prog) == Post(prog(t).value.made + rest, clock + prog(t).value.delay)
  {
    assert ([t] + rest)[1..] == rest;
  }

  lemma OneStand(p: Post, prog: Program)
    ensures Stand(p, prog, 1) == Next(p, prog) && Stand(p, prog, 2) == Next(Next(p, prog), prog)
  {
    assert Stand(p, prog, 2) == Stand(Next(p, prog), prog, 1);
  }

  /** Where the chain stands after k links. */
  function AtLink(links: seq<Link>, rest: seq<Task>, b: nat, t: nat, k: nat): Post
    requires k <= |links|
  {
    Post(Links(links[k..], b) + rest, t + Elapsed(links[..k]))
  }

  lemma AtLinkHead(links: seq<Link>, rest: seq<Task>, b: nat, t: nat, k: nat)
    requires k < |links|
    ensures AtLink(links, rest, b, t, k)
         == Post([Wait(links[k], b)] + (Links(links[k + 1..], b) + rest), t + Elapsed(links[..k]))
  {
    assert Links(links[k..], b) + rest == [Wait(links[k], b)] + (Links(links[k + 1..], b) + rest);
  }

  lemma LinkNext(prog: Program, head: Task, links: seq<Link>, rest: seq<Task>, b: nat, t: nat, k: nat)
    requires Walks(prog, head, links, b) && k < |links|
    ensures Stand(AtLink(links, rest, b, t, k), prog, 1)
         == Post([Act(links[k], b)] + (Links(links[k + 1..], b) + rest), t + Elapsed(links[..k + 1]))
    ensures Stand(AtLink(links, rest, b, t, k), prog, 2) == AtLink(links, rest, b, t, k + 1)
  {
    var x, on, now := links[k], Links(links[k + 1..], b) + rest, t + Elapsed(links[..k]);
    assert x in links;
    AtLinkHead(links, rest, b, t, k);
    ElapsedNext(links, k);
    NextIs(Wait(x, b), on, now, prog);
    NextIs(Act(x, b), on, now + x.delay, prog);
    OneStand(AtLink(links, rest, b, t, k), prog);
    assert [] + on == on;
  }

  lemma HeadNext(prog: Program, head: Task, links: seq<Link>, b: nat, t: nat)
    requires Walks(prog, head, links, b)
    ensures Stand(Post([head], t), prog, 1) == Post([Block(links, b)] + Again(head), t)
    ensures Stand(Post([head], t), prog, 2) == Post(Links(links, b) + Again(head), t)
  {
    NextIs(head, [], t, prog);
    NextIs(Block(links, b), Again(head), t, prog);
    OneStand(Post([head], t), prog);
    assert [head] + [] == [head];
    assert ([Block(links, b)] + Again(head)) + [] == [Block(links, b)] + Again(head);
  }

  lemma {:induction false} LinksStand(prog: Program, head: Task, links: seq<Link>, b: nat, t: nat, k: nat)
    requires Walks(prog, head, links, b) && k <= |links|
    ensures Stand(Post([head], t), prog, 2 * k + 2) == AtLink(links, Again(head), b, t, k)
    decreases k
  {
    if k == 0 {
      HeadNext(prog, head, links, b, t);
      assert links[0..] == links && Elapsed(links[..0]) == 0;
    } else {
      LinksStand(prog, head, links, b, t, k - 1);
      LinkNext(prog, head, links, Again(head), b, t, k - 1);
      StandAdd(Post([head], t), prog, 2 * (k - 1) + 2, 2);
    }
  }

  /** One round, evaluation by evaluation. */
  lemma RoundIsDue(prog: Program, head: Task, links: seq<Link>, b: nat, t: nat, i: nat)
    requires Walks(prog, head, links, b) && i < Length(links)
    ensures var q := Stand(Post([head], t), prog, i);
      q.todo != [] && Due(head, links, b, t, i) == Entry(q.todo[0], q.clock)
  {
    if i == 1 {
      HeadNext(prog, head, links, b, t);
    } else if i > 1 {
      LinkIsDue(prog, head, links, b, t, (i - 2) / 2);
    }
  }

  lemma LinkIsDue(prog: Program, head: Task, links: seq<Link>, b: nat, t: nat, k: nat)
    requires Walks(prog, head, links, b) && k < |links|
    ensures var q := Stand(Post([head], t), prog, 2 * k + 2);
      q.todo != [] && Entry(q.todo[0], q.clock) == Entry(Wait(links[k], b), t + Elapsed(links[..k]))
    ensures var q := Stand(Post([head], t), prog, 2 * k + 3);
      q.todo != [] && Entry(q.todo[0], q.clock) == Entry(Act(links[k], b), t + Elapsed(links[..k + 1]))
  {
    LinksStand(prog, head, links, b, t, k);
    AtLinkHead(links, Again(head), b, t, k);
    LinkNext(prog, head, links, Again(head), b, t, k);
    StandAdd(Post([head], t), prog, 2 * k + 2, 1);
  }

  lemma RoundEnds(prog: Program, head: Task, links: seq<Link>, b: nat, t: nat)
    requires Walks(prog, head, links, b)
    ensures Stand(Post([head], t), prog, Length(links)) == Post(Again(head), t + Elapsed(links))
  {
    LinksStand(prog, head, links, b, t, |links|);
    assert links[|links|..] == [] && links[..|links|] == links;
    assert Links([], b) + Again(head) == Again(head);
  }

  lemma OneMore(r: nat, n: nat)
    requires r > 0
    ensures r * n == (r - 1) * n + n && (r - 1) * n >= 0
  {
  }

  /** Round after round of an always process. */
  lemma {:induction false} RoundsStand(prog: Program, head: Task, links: seq<Link>, b: nat, r: nat)
    requires Walks(prog, head, links, b) && (r > 0 ==> head.stmt.Always?)
    ensures Stand(Post([head], 0), prog, r * Length(links)) == Post([head], r * Elapsed(links))
    decreases r
  {
    if r > 0 {
      var n, e := Length(links), Elapsed(links);
      OneMore(r, n);
      OneMore(r, e);
      RoundsStand(prog, head, links, b, r - 1);
      RoundEnds(prog, head, links, b, (r - 1) * e);
      StandAdd(Post([head], 0), prog, (r - 1) * n, n);
    }
  }

  lemma RoundsAreDue(prog: Program, head: Task, links: seq<Link>, b: nat, r: nat, i: nat)
    requires Walks(prog, head, links, b) && (r > 0 ==> head.stmt.Always?) && i < Length(links)
    ensures var q := Stand(Post([head], 0), prog, Nth(links, r, i));
      q.todo != [] && Due(head, links, b, RoundStart(links, r), i) == Entry(q.todo[0], q.clock)
  {
    RoundsStand(prog, head, links, b, r);
    StandAdd(Post([head], 0), prog, r * Length(links), i);
    RoundIsDue(prog, head, links, b, RoundStart(links, r), i);
  }

  // ---- the chain in a whole design ----

  /** The process starts among others that have nothing to do with its block. */
  predicate Among(head: Task, q: seq<Task>, k: nat, b: nat) {
    k < |q| && q[k] == head && forall i :: 0 <= i < |q| && i != k ==> !Belongs(q[i], b)
  }

  function ChainLog<S>(m: Meaning<S>, q: seq<Task>, w: World<S>, ms: seq<Move>, b: nat): seq<Entry> {
    Log(Start(q, w), Clockwork(m), ms, Around(b))
  }

  /** What a run must show of a process for which the program is right. */
  predicate OnTimetable<W>(g: State<W>, log: seq<Entry>, p: Post, prog: Program) {
    && Keeps(log, p, prog)
    && (!g.stopped ==>
          var q := Stand(p, prog, |log|);
          && (q.todo == [] || g.time <= q.clock)
          && (Complete(g) ==> q.todo == []))
  }

  lemma ChainKeepsTimetable<S(!new)>(m: Meaning<S>, q: seq<Task>, w: World<S>, k: nat, head: Task, links: seq<Link>, b: nat, ms: seq<Move>)
    requires Among(head, q, k, b) && Runs(head, links, b) && Distinct(links)
    requires Ordered(Start(q, w), Clockwork(m), ms)
    ensures OnTimetable(Play(Start(q, w), Clockwork(m), ms), ChainLog(m, q, w, ms, b), Post([head], 0), Course(b))
  {
    var p, c := Process([head], 0, false), Around(b);
    assert Names(head.stmt.body, b);
    CourseWalks(head, links, b);
    ClockworkConforms(m, b);
    StartLocated(q, w, k, c);
    assert [head][1..] == [];
    assert Own([head], c) == [head] + Own([head][1..], c) == [head];
    RunKeepsTimetable(Start(q, w), Clockwork(m), ms, p, Course(b), c);
  }

  lemma OnceOnTime<W>(g: State<W>, log: seq<Entry>, prog: Program, head: Task, links: seq<Link>, b: nat)
    requires Walks(prog, head, links, b) && Again(head) == [] && OnTimetable(g, log, Post([head], 0), prog)
    ensures |log| <= Length(links)
    ensures forall i :: 0 <= i < |log| ==> log[i] == Due(head, links, b, 0, i)
    ensures !g.stopped ==> forall i :: |log| <= i < Length(links) ==> g.time <= Due(head, links, b, 0, i).time
    ensures !g.stopped && Complete(g) ==> |log| == Length(links)
  {
    var p, n := Post([head], 0), Length(links);
    RoundEnds(prog, head, links, b, 0);
    forall i | 0 <= i < |log| ensures log[i] == Due(head, links, b, 0, i) {
      RoundIsDue(prog, head, links, b, 0, i);
    }
    if |log| < n {
      RoundIsDue(prog, head, links, b, 0, |log|);
      forall i | |log| <= i < n ensures !g.stopped ==> g.time <= Due(head, links, b, 0, i).time {
        RoundIsDue(prog, head, links, b, 0, i);
        StandWaits(p, prog, |log|, i);
      }
    }
  }

  lemma ForEverOnTime<W>(g: State<W>, log: seq<Entry>, prog: Program, head: Task, links: seq<Link>, b: nat, r: nat, i: nat)
    requires Walks(prog, head, links, b) && head.stmt.Always? && OnTimetable(g, log, Post([head], 0), prog)
    requires i < Length(links)
    ensures var n := Nth(links, r, i); var due := Due(head, links, b, RoundStart(links, r), i);
      (n < |log| ==> log[n] == due) && (!g.stopped && due.time < g.time ==> n < |log|)
  {
    var n := Nth(links, r, i);
    RoundsAreDue(prog, head, links, b, r, i);
    if |log| <= n {
      StandWaits(Post([head], 0), prog, |log|, n);
    }
  }

  lemma AlwaysMore<W>(g: State<W>, log: seq<Entry>, prog: Program, head: Task, links: seq<Link>, b: nat)
    requires Walks(prog, head, links, b) && head.stmt.Always? && OnTimetable(g, log, Post([head], 0), prog)
    ensures !g.stopped ==> !Complete(g)
  {
    RoundsAreDue(prog, head, links, b, |log|, 0);
    assert |log| <= |log| * Length(links);
    StandWaits(Post([head], 0), prog, |log|, |log| * Length(links));
  }

  /** A chain that runs once. In every run its evaluations are the due ones in order; none that was
      due before the present is missing; and when the design has nothing left to do, every one of them
      has been made. */
  lemma ChainRunsOnTime<S(!new)>(m: Meaning<S>, q: seq<Task>, w: World<S>, k: nat, head: Task, links: seq<Link>, b: nat, ms: seq<Move>)
    requires Among(head, q, k, b) && Runs(head, links, b) && Distinct(links) && head.stmt.Initial?
    requires Ordered(Start(q, w), Clockwork(m), ms)
    ensures var log := ChainLog(m, q, w, ms, b); var g := Play(Start(q, w), Clockwork(m), ms);
      && |log| <= Length(links)
      && (forall i :: 0 <= i < |log| ==> log[i] == Due(head, links, b, 0, i))
      && (!g.stopped ==> forall i :: |log| <= i < Length(links) ==> g.time <= Due(head, links, b, 0, i).time)
      && (!g.stopped && Complete(g) ==> |log| == Length(links))
  {
    CourseWalks(head, links, b);
    ChainKeepsTimetable(m, q, w, k, head, links, b, ms);
    OnceOnTime(Play(Start(q, w), Clockwork(m), ms), ChainLog(m, q, w, ms, b), Course(b), head, links, b);
  }

  /** A chain that runs for ever. The i-th evaluation of round r is made at r rounds' delays plus its
      own, in every run that has come past that time, and the design always has more to do. */
  lemma ChainRunsForEver<S(!new)>(m: Meaning<S>, q: seq<Task>, w: World<S>, k: nat, head: Task, links: seq<Link>, b: nat, ms: seq<Move>, r: nat, i: nat)
    requires Among(head, q, k, b) && Runs(head, links, b) && Distinct(links) && head.stmt.Always?
    requires Ordered(Start(q, w), Clockwork(m), ms) && i < Length(links)
    ensures var log := ChainLog(m, q, w, ms, b); var g := Play(Start(q, w), Clockwork(m), ms);
      var n := Nth(links, r, i); var due := Due(head, links, b, RoundStart(links, r), i);
      && (n < |log| ==> log[n] == due)
      && (!g.stopped && due.time < g.time ==> n < |log|)
      && (!g.stopped ==> !Complete(g))
  {
    var log, g := ChainLog(m, q, w, ms, b), Play(Start(q, w), Clockwork(m), ms);
    CourseWalks(head, links, b);
    ChainKeepsTimetable(m, q, w, k, head, links, b, ms);
    ForEverOnTime(g, log, Course(b), head, links, b, r, i);
    AlwaysMore(g, log, Course(b), head, links, b);
  }

  /** The simulator on such a design: however its run ends, the chain has been on time, and when it ends
      by itself the chain has run to its end. */
  method SimulateChain<S(!new)>(s: Scheduler<World<S>>, ghost m: Meaning<S>, ghost q: seq<Task>, ghost k: nat, ghost head: Task,
                                ghost links: seq<Link>, ghost b: nat, fuel: nat)
    returns (status: Status, ghost log: seq<Entry>)
    requires s.Sound() && !s.stopped && s.eval == Clockwork(m) && s.Idle() == Start(q, s.world) && s.lists.trig == []
    requires Among(head, q, k, b) && Runs(head, links, b) && Distinct(links) && head.stmt.Initial?
    modifies s
    ensures exists ms :: log == ChainLog(m, q, old(s.world), ms, b) && Ordered(Start(q, old(s.world)), Clockwork(m), ms)
    ensures |log| <= Length(links) && forall i :: 0 <= i < |log| ==> log[i] == Due(head, links, b, 0, i)
    ensures status == Going ==> |log| == Length(links)
  {
    ghost var w, ms, end := s.world, [], s.Idle();
    status, ms, end := s.Simulate(fuel);
    log := ChainLog(m, q, w, ms, b);
    ChainRunsOnTime(m, q, w, k, head, links, b, ms);
  }
}
