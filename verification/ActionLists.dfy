/** The linked lists of actions that a time slot holds, with their head and end pointers. */
module ActionLists {
  import opened Actions

  /** Which of a slot's five lists. */
  datatype Region = Active | Triggered | Inactive | Update | Monitor

  class Node {
    var action: Action
    var next: Node?
    ghost var owner: ActionList   // the list that links this node

    constructor (action: Action, ghost owner: ActionList)
      ensures this.action == action && next == null && this.owner == owner
    {
      this.action, next, this.owner := action, null, owner;
    }
  }

  ghost function NodeAt(ns: seq<Node>, k: int): Node? {
    if 0 <= k < |ns| then ns[k] else null
  }

  /** The nodes ns hang together from the head to the end, and no node comes twice. */
  ghost predicate Chained(head: Node?, ns: seq<Node>)
    reads ns
  {
    && head == NodeAt(ns, 0)
    && (forall i {:trigger ns[i].next} :: 0 <= i < |ns| ==> ns[i].next == NodeAt(ns, i + 1))
    && Distinct(ns)
  }

  ghost predicate Distinct(ns: seq<Node>) {
    forall i, j :: 0 <= i < j < |ns| ==> ns[i] != ns[j]
  }

  ghost predicate Carries(ns: seq<Node>, q: seq<Action>)
    reads ns
  {
    |ns| == |q| && forall i :: 0 <= i < |ns| ==> ns[i].action == q[i]
  }

  ghost predicate Owned(ns: seq<Node>, owner: ActionList)
    reads ns
  {
    forall i :: 0 <= i < |ns| ==> ns[i].owner == owner
  }

  ghost predicate Within(ns: seq<Node>, all: seq<Node>) {
    forall i :: 0 <= i < |ns| ==> ns[i] in all
  }

  lemma WithinFurther(ns: seq<Node>, middle: seq<Node>, all: seq<Node>)
    requires Within(ns, middle) && Within(middle, all)
    ensures Within(ns, all)
  {
  }

  class ActionList {
    var head: Node?
    var end: Node?               // the last node, while there is one
    ghost var nodes: seq<Node>
    ghost var contents: seq<Action>
    ghost const time: nat        // the time and region the list belongs to, for good
    ghost const region: Region

    ghost predicate Valid()
      reads this, nodes
    {
      Linked() && (nodes != [] ==> end == nodes[|nodes| - 1])
    }

    constructor (ghost time: nat, ghost region: Region)
      ensures Valid() && head == null && contents == [] && nodes == [] && this.time == time && this.region == region
    {
      head, end, nodes, contents := null, null, [], [];
      this.time, this.region := time, region;
    }

    /** Append, unless the action is a statement that the list already has. */
    method Append(a: Action)
      requires Valid()
      modifies this, nodes
      ensures Valid() && contents == Appended(old(contents), a)
      ensures forall n :: n in nodes ==> n in old(nodes) || fresh(n)
    {
      var aa := head;
      ghost var i := 0;
      while aa != null
        invariant i <= |nodes| && aa == if i < |nodes| then nodes[i] else null
        invariant forall j :: 0 <= j < i ==> !(contents[j].Plain? && a.Plain? && contents[j].task.stmt == a.task.stmt)
        decreases |nodes| - i
      {
        if aa.action.Plain? && a.Plain? && aa.action.task.stmt == a.task.stmt {
          return;
        }
        aa, i := aa.next, i + 1;
      }
      var n := new Node(a, this);
      if head == null {
        head, end := n, n;
      } else {
        end.next := n;
      }
      nodes, contents := nodes + [n], contents + [a];
      while end.next != null
        modifies this`end
        invariant end == nodes[|nodes| - 1] || (|nodes| > 1 && end == nodes[|nodes| - 2])
        decreases end != nodes[|nodes| - 1]
      {
        end := end.next;
      }
    }

    /** Take everything of a disabled block out, relinking in place, and find the end again. */
    method Purge(blk: nat)
      requires Valid()
      modifies this, nodes
      ensures Valid() && contents == Purged(old(contents), blk)
      ensures Within(nodes, old(nodes))
    {
      if head == null {
        return;
      }
      HalfwayStarts(contents, blk);
      PurgeNodes(blk, Purged(contents, blk));
      FindEnd();
    }

    /** Take over all that another list holds, as promoting a region does: only the head is passed on,
        and the end pointer is left as it was. */
    method MoveFrom(from: ActionList)
      requires Valid() && from.Valid() && from != this && nodes == []
      modifies this`head, this`nodes, this`contents, from`head, from`nodes, from`contents, from.nodes
      ensures Linked() && contents == old(from.contents) && nodes == old(from.nodes) && end == old(end)
      ensures from.Valid() && from.contents == [] && from.nodes == []
    {
      head, from.head := from.head, null;
      nodes, contents, from.nodes, from.contents := from.nodes, from.contents, [], [];
      forall i | 0 <= i < |nodes| {
        nodes[i].owner := this;
      }
    }

    /** Hand the chain of nodes over. An end pointer that was not right does no harm: the list is empty
        now, and the next append sets it. */
    method TakeAll() returns (first: Node?, ghost ns: seq<Node>)
      requires Linked()
      modifies this`head, this`nodes, this`contents
      ensures Valid() && contents == [] && nodes == []
      ensures ns == old(nodes) && Chained(first, ns) && Carries(ns, old(contents))
    {
      first, ns := head, nodes;
      head, nodes, contents := null, [], [];
    }

    method FindEnd()
      requires Linked()
      modifies this`end
      ensures Valid()
    {
      end := head;
      if end != null {
        ghost var i := 0;
        while end.next != null
          invariant i < |nodes| && end == nodes[i]
          decreases |nodes| - i
        {
          end, i := end.next, i + 1;
        }
      }
    }

    /** The nodes are in order, but the end pointer need not be. */
    ghost predicate Linked()
      reads this, nodes
    {
      Chained(head, nodes) && Carries(nodes, contents) && Owned(nodes, this)
    }

    method PurgeNodes(blk: nat, ghost goal: seq<Action>)
      requires Linked() && Halfway(contents, 0, blk, goal)
      modifies this`head, this`nodes, this`contents, nodes
      ensures Linked() && contents == goal && Within(nodes, old(nodes))
    {
      var a, ap: Node? := head, null;
      ghost var k: nat, was := 0, nodes;
      while a != null
        invariant Linked() && Within(nodes, was)
        invariant k <= |nodes| && a == NodeAt(nodes, k) && ap == NodeAt(nodes, k - 1)
        invariant Halfway(contents, k, blk, goal)
        decreases |nodes| - k
      {
        ap, a, k := PurgeNext(ap, a, k, blk, goal, was);
      }
      HalfwayEnds(contents, blk, goal);
    }

    /** One round of the loop: the node at k is dealt with, and the one after it is next. */
    method PurgeNext(ap: Node?, a: Node, ghost k: nat, blk: nat, ghost goal: seq<Action>, ghost was: seq<Node>)
      returns (ap': Node?, a': Node?, ghost k': nat)
      requires Linked() && Within(nodes, was) && k < |nodes| && a == nodes[k] && ap == NodeAt(nodes, k - 1)
      requires Halfway(contents, k, blk, goal)
      modifies this`head, this`nodes, this`contents, was
      ensures Linked() && Within(nodes, was)
      ensures k' <= |nodes| && |nodes| - k' < old(|nodes|) - k
      ensures a' == NodeAt(nodes, k') && ap' == NodeAt(nodes, k' - 1) && Halfway(contents, k', blk, goal)
    {
      ghost var ns := nodes;
      a' := a.next;
      assert a in was && (ap != null ==> ap in was);
      var stays := PurgeNode(ap, a, k, blk, goal);
      WithinFurther(nodes, ns, was);
      ap', k' := if stays then a else ap, if stays then k + 1 else k;
    }

    /** The node at k, after ap, is purged and stays, or is unlinked. */
    method PurgeNode(ap: Node?, a: Node, ghost k: nat, blk: nat, ghost goal: seq<Action>) returns (stays: bool)
      requires Linked() && k < |nodes| && a == nodes[k] && ap == NodeAt(nodes, k - 1)
      requires Halfway(contents, k, blk, goal)
      modifies this`head, this`nodes, this`contents, a`action, if ap == null then {} else {ap}
      ensures Linked() && Within(nodes, old(nodes))
      ensures var k' := if stays then k + 1 else k;
              && k' <= |nodes| && |nodes| - k' < old(|nodes|) - k
              && old(a.next) == NodeAt(nodes, k') && (if stays then a else ap) == NodeAt(nodes, k' - 1)
              && Halfway(contents, k', blk, goal)
    {
      HalfwayFurther(contents, k, blk, goal);
      stays := true;
      match a.action {
        case Saved(fs) =>
          var left := PurgedFrames(fs, blk);
          if Exhausted(left) {
            stays := false;
          } else {
            Replace(a, Saved(left), k);
          }
        case Plain(t) =>
          stays := blk !in t.ctx;
      }
      if !stays {
        Unlink(ap, a, k);
      }
    }

    method Replace(a: Node, x: Action, ghost k: nat)
      requires Linked() && k < |nodes| && a == nodes[k]
      modifies this`contents, a`action
      ensures Linked() && contents == old(contents)[k := x]
    {
      a.action := x;
      contents := contents[k := x];
    }

    method Unlink(ap: Node?, a: Node, ghost k: nat)
      requires Linked() && k < |nodes| && a == nodes[k] && ap == NodeAt(nodes, k - 1)
      modifies this`head, this`nodes, this`contents, if ap == null then {} else {ap}
      ensures Linked() && nodes == old(nodes)[..k] + old(nodes)[k + 1..]
      ensures contents == old(contents)[..k] + old(contents)[k + 1..]
    {
      ghost var ns := nodes;
      CutOut(ns, k, this);
      if ap == null {
        head := a.next;
      } else {
        ap.next := a.next;
      }
      nodes, contents := nodes[..k] + nodes[k + 1..], contents[..k] + contents[k + 1..];
      forall i | 0 <= i < |nodes|
        ensures nodes[i].next == NodeAt(nodes, i + 1) && nodes[i].action == contents[i]
      {
        var j := if i < k then i else i + 1;
        assert nodes[i] == ns[j] && old(ns[j].next) == NodeAt(ns, j + 1);
      }
    }
  }

  lemma CutOut(ns: seq<Node>, k: nat, owner: ActionList)
    requires k < |ns| && Distinct(ns) && Owned(ns, owner)
    ensures Distinct(ns[..k] + ns[k + 1..]) && Owned(ns[..k] + ns[k + 1..], owner)
  {
  }

  function Joined(p: seq<Action>, r: seq<Action>): seq<Action> {
    p + r
  }

  /** The first k actions are done: with the purge of the others they make the goal. */
  ghost predicate Halfway(now: seq<Action>, k: nat, blk: nat, goal: seq<Action>) {
    forall p, r {:trigger Joined(p, r)} :: now == Joined(p, r) && |p| == k ==> goal == p + Purged(r, blk)
  }

  lemma HalfwayStarts(q: seq<Action>, blk: nat)
    ensures Halfway(q, 0, blk, Purged(q, blk))
  {
    forall p, r | q == Joined(p, r) && |p| == 0 ensures Purged(q, blk) == p + Purged(r, blk) {
      assert q == r;
    }
  }

  lemma HalfwayFurther(q: seq<Action>, k: nat, blk: nat, goal: seq<Action>)
    requires k < |q| && Halfway(q, k, blk, goal)
    ensures PurgedAction(q[k], blk) == [] ==> Halfway(q[..k] + q[k + 1..], k, blk, goal)
    ensures forall x :: PurgedAction(q[k], blk) == [x] ==> Halfway(q[k := x], k + 1, blk, goal)
  {
    var done, left := q[..k], q[k + 1..];
    assert q == Joined(done, q[k..]);
    assert q[k..][0] == q[k] && q[k..][1..] == left;
    forall p, r | done + left == Joined(p, r) && |p| == k && PurgedAction(q[k], blk) == []
      ensures goal == p + Purged(r, blk)
    {
      SplitOnce(done, left, p, r);
    }
    forall x, p, r | PurgedAction(q[k], blk) == [x] && q[k := x] == Joined(p, r) && |p| == k + 1
      ensures goal == p + Purged(r, blk)
    {
      assert q[k := x] == (done + [x]) + left;
      SplitOnce(done + [x], left, p, r);
      assert done + ([x] + Purged(left, blk)) == (done + [x]) + Purged(left, blk);
    }
  }

  lemma SplitOnce(p: seq<Action>, r: seq<Action>, p': seq<Action>, r': seq<Action>)
    requires p + r == p' + r' && |p| == |p'|
    ensures p == p' && r == r'
  {
    assert p == (p + r)[..|p|] && r == (p + r)[|p|..];
    assert p' == (p' + r')[..|p|] && r' == (p' + r')[|p|..];
  }

  lemma HalfwayEnds(q: seq<Action>, blk: nat, goal: seq<Action>)
    requires Halfway(q, |q|, blk, goal)
    ensures q == goal
  {
    assert q == Joined(q, []);
  }
}
