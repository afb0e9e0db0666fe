/** Statements, actions and saved stacks of the simulator kernel: the values that the
    time wheel, the event lists and the scheduler move around. */
module Actions {
  import opened Basics

  /** A statement object. The id stands for the object's address, so two statements are the
      same object exactly when they are equal. Conditions, counts and delays are numbers naming
      expressions. A Prim runs to its end at once; Other is every remaining kind of statement. */
  datatype Stmt =
    | Initial(id: nat, body: Stmt)
    | Always(id: nat, body: Stmt)
    | Begin(id: nat, stmts: seq<Stmt>)
    | If(id: nat, cond: nat, thenPart: Option<Stmt>, elsePart: Option<Stmt>)
    | Case(id: nat, subject: nat, items: seq<CaseItem>)
    | Forever(id: nat, body: Stmt)
    | Repeat(id: nat, count: nat, body: Stmt)
    | While(id: nat, cond: nat, part: Option<Stmt>)
    | For(id: nat, init: Option<Stmt>, cond: nat, step: Option<Stmt>, part: Option<Stmt>)
    | Delay(id: nat, delay: nat, part: Option<Stmt>)
    | Disable(id: nat)
    | Prim(id: nat)
    | Other(id: nat)

  /** One arm of a case statement: its labels, or none of them for a default arm. */
  datatype CaseItem = CaseItem(labels: seq<nat>, isDefault: bool, part: Option<Stmt>)

  /** A part that may be missing. */
  function PartList(p: Option<Stmt>): seq<Stmt> {
    if p.Some? then [p.value] else []
  }

  /** A statement to evaluate in the context of the blocks that enclose it. */
  datatype Task = Task(stmt: Stmt, ctx: set<nat>)

  datatype Kind = Sequential | Fence

  /** What an action list holds: a statement, or the saved stack of a process that waits. */
  datatype Action = Plain(task: Task) | Saved(frames: seq<Frame>)

  datatype Frame = Frame(actions: seq<Action>, kind: Kind)

  /** The statement types that open a stack frame of their own when they set up actions. */
  predicate IsBlock(s: Stmt) {
    s.Initial? || s.Always? || s.Begin?
  }

  /** An action list refuses a second action for a statement it already holds. */
  predicate Holds(q: seq<Action>, s: Stmt) {
    exists i :: 0 <= i < |q| && q[i].Plain? && q[i].task.stmt == s
  }

  /** Append to an action list as all five append functions do. */
  function Appended(q: seq<Action>, a: Action): seq<Action> {
    if a.Plain? && Holds(q, a.task.stmt) then q else q + [a]
  }

  function AppendedAll(q: seq<Action>, ts: seq<Task>): seq<Action>
    decreases ts
  {
    if ts == [] then q else AppendedAll(Appended(q, Plain(ts[0])), ts[1..])
  }

  /** The place of the first task for statement s. */
  function FirstFor(ts: seq<Task>, s: Stmt): (k: nat)
    ensures k <= |ts| && (k < |ts| ==> ts[k].stmt == s) && forall j :: 0 <= j < k ==> ts[j].stmt != s
  {
    if ts == [] || ts[0].stmt == s then 0 else 1 + FirstFor(ts[1..], s)
  }

  /** Entry i is the first given task for its statement, which nothing before it is for. */
  predicate IsNew(r: seq<Action>, i: nat, ts: seq<Task>)
    requires i < |r|
  {
    r[i].Plain? && !Holds(r[..i], r[i].task.stmt) && Rank(r, i, ts) < |ts| && ts[Rank(r, i, ts)] == r[i].task
  }

  function Rank(r: seq<Action>, i: nat, ts: seq<Task>): nat
    requires i < |r|
  {
    if r[i].Plain? then FirstFor(ts, r[i].task.stmt) else |ts|
  }

  /** What appending does to a list: what was there stays in front; then come, in the given order,
      the first given tasks for the statements it did not have; and it has every given statement. */
  predicate Extends(q: seq<Action>, ts: seq<Task>, r: seq<Action>) {
    && q <= r
    && (forall i :: |q| <= i < |r| ==> IsNew(r, i, ts))
    && (forall i, j :: |q| <= i < j < |r| ==> Rank(r, i, ts) < Rank(r, j, ts))
    && (forall k :: 0 <= k < |ts| ==> Holds(r, ts[k].stmt))
  }

  lemma {:induction false} AppendedAllIs(q: seq<Action>, ts: seq<Task>)
    ensures Extends(q, ts, AppendedAll(q, ts))
    decreases ts
  {
    if ts != [] {
      AppendedAllIs(Appended(q, Plain(ts[0])), ts[1..]);
      ExtendsFurther(q, ts, AppendedAll(q, ts));
    }
  }

  lemma ExtendsFurther(q: seq<Action>, ts: seq<Task>, r: seq<Action>)
    requires ts != [] && Extends(Appended(q, Plain(ts[0])), ts[1..], r)
    ensures Extends(q, ts, r)
  {
    var next, tail := Appended(q, Plain(ts[0])), ts[1..];
    HoldsAppended(q, Plain(ts[0]));
    forall i | |next| <= i < |r| ensures IsNew(r, i, ts) && Rank(r, i, ts) == 1 + Rank(r, i, tail) {
      NewFurther(next, ts, r, i);
    }
    if |q| < |next| {
      assert next[|q|] == r[|q|] == Plain(ts[0]) && r[..|q|] == q;
    }
    HoldsLonger(next, r, ts[0].stmt);
    forall k | 0 <= k < |ts| ensures Holds(r, ts[k].stmt) {
      assert k > 0 ==> ts[k] == tail[k - 1];
    }
  }

  lemma NewFurther(next: seq<Action>, ts: seq<Task>, r: seq<Action>, i: nat)
    requires ts != [] && next <= r && |next| <= i < |r| && Holds(next, ts[0].stmt) && IsNew(r, i, ts[1..])
    ensures IsNew(r, i, ts) && Rank(r, i, ts) == 1 + Rank(r, i, ts[1..])
  {
    HoldsLonger(next, r[..i], ts[0].stmt);
  }

  lemma HoldsAppended(q: seq<Action>, a: Action)
    requires a.Plain?
    ensures Holds(Appended(q, a), a.task.stmt)
  {
    assert (q + [a])[|q|] == a;
  }

  lemma HoldsLonger(q: seq<Action>, r: seq<Action>, s: Stmt)
    requires q <= r && Holds(q, s)
    ensures Holds(r, s)
  {
    var i :| 0 <= i < |q| && q[i].Plain? && q[i].task.stmt == s;
    assert r[i] == q[i];
  }

  // ---- purging a disabled block ----

  /** What is left of one action when block blk is disabled: nothing, or one action. */
  function PurgedAction(a: Action, blk: nat): seq<Action>
    decreases a
  {
    match a
    case Plain(t) => if blk in t.ctx then [] else [a]
    case Saved(fs) =>
      var left := PurgedFrames(fs, blk);
      if Exhausted(left) then [] else [Saved(left)]
  }

  function Purged(q: seq<Action>, blk: nat): seq<Action>
    decreases q
  {
    if q == [] then [] else PurgedAction(q[0], blk) + Purged(q[1..], blk)
  }

  function PurgedFrames(fs: seq<Frame>, blk: nat): (r: seq<Frame>)
    ensures |r| == |fs|
    decreases fs
  {
    if fs == [] then []
    else [Frame(Purged(fs[0].actions, blk), fs[0].kind)] + PurgedFrames(fs[1..], blk)
  }

  predicate Exhausted(fs: seq<Frame>) {
    forall i :: 0 <= i < |fs| ==> fs[i].actions == []
  }

  // ---- the statements an action list will still run, in order ----

  /** All tasks of an action list, saved stacks included, in the order they would run. */
  function Tasks(q: seq<Action>): seq<Task>
    decreases q
  {
    if q == [] then [] else ActionTasks(q[0]) + Tasks(q[1..])
  }

  function ActionTasks(a: Action): seq<Task>
    decreases a
  {
    match a
    case Plain(t) => [t]
    case Saved(fs) => Join(fs)
  }

  /** The tasks of a stack, top frame first: the remainder of the process it belongs to. */
  function Join(fs: seq<Frame>): seq<Task>
    decreases fs
  {
    if fs == [] then [] else Join(fs[1..]) + Tasks(fs[0].actions)
  }

  /** Tasks that survive disabling blk. */
  function Outside(ts: seq<Task>, blk: nat): seq<Task> {
    if ts == [] then []
    else (if blk in ts[0].ctx then [] else [ts[0]]) + Outside(ts[1..], blk)
  }

  /** What survives is exactly what is outside the block, in its order. */
  lemma {:induction false} OutsideExactly(ts: seq<Task>, blk: nat) returns (at: seq<nat>)
    ensures PicksAt(ts, at, Outside(ts, blk))
    ensures forall k: nat :: k in at <==> k < |ts| && blk !in ts[k].ctx
  {
    at := [];
    if ts != [] {
      var rest := OutsideExactly(ts[1..], blk);
      at := PickFirst(ts, blk !in ts[0].ctx, rest, Outside(ts[1..], blk));
    }
  }

  lemma {:induction false} OutsideConcat(s: seq<Task>, t: seq<Task>, blk: nat)
    ensures Outside(s + t, blk) == Outside(s, blk) + Outside(t, blk)
  {
    if s == [] {
      assert s + t == t;
    } else {
      assert (s + t)[0] == s[0] && (s + t)[1..] == s[1..] + t;
      OutsideConcat(s[1..], t, blk);
    }
  }

  /** No frame of the stack, at any depth, still holds a task. */
  lemma {:induction false} ExhaustedJoin(fs: seq<Frame>)
    requires Exhausted(fs)
    ensures Join(fs) == []
  {
    if fs != [] {
      assert Exhausted(fs[1..]);
      ExhaustedJoin(fs[1..]);
    }
  }

  lemma {:induction false} TasksConcat(p: seq<Action>, q: seq<Action>)
    ensures Tasks(p + q) == Tasks(p) + Tasks(q)
  {
    if p == [] {
      assert p + q == q;
    } else {
      assert (p + q)[0] == p[0] && (p + q)[1..] == p[1..] + q;
      TasksConcat(p[1..], q);
      Assoc(ActionTasks(p[0]), Tasks(p[1..]), Tasks(q));
    }
  }

  lemma {:induction false} JoinConcat(s: seq<Frame>, t: seq<Frame>)
    ensures Join(s + t) == Join(t) + Join(s)
  {
    if s == [] {
      assert s + t == t;
    } else {
      assert (s + t)[0] == s[0] && (s + t)[1..] == s[1..] + t;
      assert Join(s + t) == Join(s[1..] + t) + Tasks(s[0].actions);
      JoinConcat(s[1..], t);
      Assoc(Join(t), Join(s[1..]), Tasks(s[0].actions));
    }
  }

  lemma JoinPush(fs: seq<Frame>, f: Frame)
    ensures Join(fs + [f]) == Tasks(f.actions) + Join(fs)
  {
    JoinConcat(fs, [f]);
    assert [f][1..] == [];
    assert Join([f]) == Join([]) + Tasks(f.actions);
  }

  // ---- purge is exactly a filter, at every depth ----

  /** Purging keeps exactly the tasks outside the block, in order, whatever the nesting. */
  lemma {:induction false} PurgeIsFilter(q: seq<Action>, blk: nat)
    ensures Tasks(Purged(q, blk)) == Outside(Tasks(q), blk)
    decreases q
  {
    if q != [] {
      PurgeActionIsFilter(q[0], blk);
      PurgeIsFilter(q[1..], blk);
      TasksConcat(PurgedAction(q[0], blk), Purged(q[1..], blk));
      OutsideConcat(ActionTasks(q[0]), Tasks(q[1..]), blk);
    }
  }

  lemma {:induction false} PurgeActionIsFilter(a: Action, blk: nat)
    ensures Tasks(PurgedAction(a, blk)) == Outside(ActionTasks(a), blk)
    decreases a
  {
    match a
    case Plain(t) =>
      assert [a][1..] == [];
      assert Outside([t], blk) == (if blk in t.ctx then [] else [t]) + Outside([], blk);
    case Saved(fs) =>
      PurgeFramesIsFilter(fs, blk);
      var left := PurgedFrames(fs, blk);
      if Exhausted(left) {
        ExhaustedJoin(left);
      } else {
        assert [Saved(left)][1..] == [];
        assert Tasks([Saved(left)]) == ActionTasks(Saved(left)) + Tasks([]);
      }
  }

  lemma {:induction false} PurgeFramesIsFilter(fs: seq<Frame>, blk: nat)
    ensures Join(PurgedFrames(fs, blk)) == Outside(Join(fs), blk)
    decreases fs
  {
    if fs != [] {
      PurgeIsFilter(fs[0].actions, blk);
      PurgeFramesIsFilter(fs[1..], blk);
      OutsideConcat(Join(fs[1..]), Tasks(fs[0].actions), blk);
      assert PurgedFrames(fs, blk)[1..] == PurgedFrames(fs[1..], blk);
    }
  }

  /** No purged list holds a saved stack whose every level is empty, and it holds no plain
      action of the block, at any depth. */
  ghost predicate Clean(q: seq<Action>, blk: nat)
    decreases q
  {
    forall i :: 0 <= i < |q| ==> CleanAction(q[i], blk)
  }

  ghost predicate CleanAction(a: Action, blk: nat)
    decreases a
  {
    match a
    case Plain(t) => blk !in t.ctx
    case Saved(fs) =>
      && !Exhausted(fs)
      && forall i :: 0 <= i < |fs| ==> Clean(fs[i].actions, blk)
  }

  lemma {:induction false} PurgedClean(q: seq<Action>, blk: nat)
    ensures Clean(Purged(q, blk), blk)
    decreases q
  {
    if q != [] {
      PurgedActionClean(q[0], blk);
      PurgedClean(q[1..], blk);
    }
  }

  lemma {:induction false} PurgedActionClean(a: Action, blk: nat)
    ensures Clean(PurgedAction(a, blk), blk)
    decreases a
  {
    if a.Saved? {
      PurgedFramesClean(a.frames, blk);
    }
  }

  lemma {:induction false} PurgedFramesClean(fs: seq<Frame>, blk: nat)
    ensures forall i :: 0 <= i < |fs| ==> Clean(PurgedFrames(fs, blk)[i].actions, blk)
    decreases fs
  {
    if fs != [] {
      PurgedClean(fs[0].actions, blk);
      PurgedFramesClean(fs[1..], blk);
    }
  }

  /** Disabling the same block twice changes nothing more. */
  lemma {:induction false} CleanIsFixed(q: seq<Action>, blk: nat)
    requires Clean(q, blk)
    ensures Purged(q, blk) == q
    decreases q
  {
    if q != [] {
      assert CleanAction(q[0], blk);
      assert Clean(q[1..], blk) by {
        forall i | 0 <= i < |q[1..]| ensures CleanAction(q[1..][i], blk) {
          assert q[1..][i] == q[i + 1];
        }
      }
      CleanIsFixed(q[1..], blk);
      if q[0].Saved? {
        CleanFramesAreFixed(q[0].frames, blk);
      }
    }
  }

  lemma {:induction false} CleanFramesAreFixed(fs: seq<Frame>, blk: nat)
    requires forall i :: 0 <= i < |fs| ==> Clean(fs[i].actions, blk)
    ensures PurgedFrames(fs, blk) == fs
    decreases fs
  {
    if fs != [] {
      CleanIsFixed(fs[0].actions, blk);
      CleanFramesAreFixed(fs[1..], blk);
    }
  }
}
