/** `walk_tg_tree_from`: a walk over the task-group tree that keeps no stack, moving between groups by
    their parent and sibling pointers. */
module GroupWalk {

  datatype Tree = Node(id: nat, kids: seq<Tree>)

  datatype Ptr = Null | To(id: nat)

  /** The pointers of the task groups: `parent`, the head of `children`, the next of `siblings`. */
  datatype Heap = Heap(parent: map<nat, Ptr>, first: map<nat, Ptr>, next: map<nat, Ptr>)

  datatype Call = Down(id: nat) | Up(id: nat)

  /** What a visitor returns may depend on everything it has been called with so far; the last element
      of its argument is the present call. */
  type Visitor = seq<Call> -> int

  /** The pointers reachable from group `t.id` downwards are those of tree `t`. */
  ghost predicate Rep(h: Heap, t: Tree)
    decreases t, 1
  {
    t.id in h.first && RepKids(h, t.kids, t.id, h.first[t.id])
  }

  /** `p` heads a sibling list whose groups are `ks`, all with parent `pid`. */
  ghost predicate RepKids(h: Heap, ks: seq<Tree>, pid: nat, p: Ptr)
    decreases ks, 0
  {
    if ks == [] then p == Null
    else
      && p == To(ks[0].id) && ks[0].id in h.parent && ks[0].id in h.next
      && h.parent[ks[0].id] == To(pid)
      && Rep(h, ks[0])
      && RepKids(h, ks[1..], pid, h.next[ks[0].id])
  }

  // ----- The walk as recursion

  /** Enter, visit the children in order, leave; stop at the first non-zero result. */
  ghost function Walk(t: Tree, log: seq<Call>, visit: Visitor): (seq<Call>, int)
    decreases t, 1
  {
    var entered := log + [Down(t.id)];
    if visit(entered) != 0 then (entered, visit(entered)) else Finish(t, t.kids, entered, visit)
  }

  ghost function WalkKids(ks: seq<Tree>, log: seq<Call>, visit: Visitor): (seq<Call>, int)
    decreases ks, 0
  {
    if ks == [] then (log, 0) else
    var (l, ret) := Walk(ks[0], log, visit);
    if ret != 0 then (l, ret) else WalkKids(ks[1..], l, visit)
  }

  /** What remains to do in `t` when its children `ks` have yet to be visited. */
  ghost function Finish(t: Tree, ks: seq<Tree>, log: seq<Call>, visit: Visitor): (seq<Call>, int)
    decreases ks, 1
  {
    var (l, ret) := WalkKids(ks, log, visit);
    if ret != 0 then (l, ret) else
    var left := l + [Up(t.id)];
    (left, visit(left))
  }

  /** The complete pre- and post-order tour. */
  ghost function Tour(t: Tree): seq<Call>
    decreases t, 1
  {
    [Down(t.id)] + TourKids(t.kids) + [Up(t.id)]
  }

  ghost function TourKids(ks: seq<Tree>): seq<Call>
    decreases ks, 0
  {
    if ks == [] then [] else Tour(ks[0]) + TourKids(ks[1..])
  }

  /** A walk that has appended `l[|log|..]` to `log` with result `ret`: it follows `tour`, every call
      but the last returned zero, and it ended early only on a non-zero result. */
  ghost predicate Follows(log: seq<Call>, l: seq<Call>, ret: int, tour: seq<Call>, visit: Visitor) {
    && log <= l <= log + tour
    && (forall n :: |log| < n < |l| ==> visit(l[..n]) == 0)
    && (|l| > |log| ==> visit(l) == ret)
    && (|l| == |log| ==> ret == 0)
    && (ret == 0 ==> l == log + tour)
  }

  lemma FollowsAppend(log: seq<Call>, m: seq<Call>, l: seq<Call>, ret: int, t1: seq<Call>, t2: seq<Call>,
      visit: Visitor)
    requires Follows(log, m, 0, t1, visit) && Follows(m, l, ret, t2, visit)
    ensures Follows(log, l, ret, t1 + t2, visit)
  {
    assert m + t2 == log + (t1 + t2);
    assert |l| == |m| ==> l == m;
    forall n | |log| < n < |l| ensures visit(l[..n]) == 0 {
      if n <= |m| {
        assert l[..n] == m[..n];
        assert m[..|m|] == m;
      }
    }
  }

  lemma FollowsStop(log: seq<Call>, l: seq<Call>, ret: int, t1: seq<Call>, t2: seq<Call>, visit: Visitor)
    requires Follows(log, l, ret, t1, visit) && ret != 0
    ensures Follows(log, l, ret, t1 + t2, visit)
  {
    assert log + (t1 + t2) == log + t1 + t2;
  }

  lemma FollowsCall(log: seq<Call>, c: Call, visit: Visitor)
    ensures Follows(log, log + [c], visit(log + [c]), [c], visit)
  {
  }

  /** The recursive walk is the longest prefix of the tour before a visitor objects. */
  lemma {:induction false} WalkFollows(t: Tree, log: seq<Call>, visit: Visitor)
    ensures Follows(log, Walk(t, log, visit).0, Walk(t, log, visit).1, Tour(t), visit)
    decreases t, 1
  {
    hide Follows;
    var entered := log + [Down(t.id)];
    FollowsCall(log, Down(t.id), visit);
    assert Tour(t) == [Down(t.id)] + (TourKids(t.kids) + [Up(t.id)]);
    if visit(entered) != 0 {
      FollowsStop(log, entered, visit(entered), [Down(t.id)], TourKids(t.kids) + [Up(t.id)], visit);
    } else {
      WalkKidsFollows(t.kids, entered, visit);
      var (l, ret) := WalkKids(t.kids, entered, visit);
      var (l', ret') := Finish(t, t.kids, entered, visit);
      if ret != 0 {
        FollowsStop(entered, l, ret, TourKids(t.kids), [Up(t.id)], visit);
      } else {
        FollowsCall(l, Up(t.id), visit);
        FollowsAppend(entered, l, l', ret', TourKids(t.kids), [Up(t.id)], visit);
      }
      FollowsAppend(log, entered, l', ret', [Down(t.id)], TourKids(t.kids) + [Up(t.id)], visit);
    }
  }

  lemma {:induction false} WalkKidsFollows(ks: seq<Tree>, log: seq<Call>, visit: Visitor)
    ensures Follows(log, WalkKids(ks, log, visit).0, WalkKids(ks, log, visit).1, TourKids(ks), visit)
    decreases ks, 0
  {
    if ks != [] {
      WalkFollows(ks[0], log, visit);
      var (l, ret) := Walk(ks[0], log, visit);
      var (l', ret') := WalkKids(ks, log, visit);
      if ret != 0 {
        FollowsStop(log, l, ret, Tour(ks[0]), TourKids(ks[1..]), visit);
      } else {
        WalkKidsFollows(ks[1..], l, visit);
        FollowsAppend(log, l, l', ret', Tour(ks[0]), TourKids(ks[1..]), visit);
      }
    }
  }

  // ----- The walk as the source runs it

  ghost function Size(t: Tree): nat
    ensures Size(t) >= 1
    decreases t, 1
  {
    1 + Sizes(t.kids)
  }

  ghost function Sizes(ks: seq<Tree>): nat
    decreases ks, 0
  {
    if ks == [] then 0 else Size(ks[0]) + Sizes(ks[1..])
  }

  /** A group being visited and the siblings still to come after its current child. */
  datatype Frame = Frame(node: Tree, rest: seq<Tree>)

  /** The walk stands in `cur`; `stack` lists the groups around it, innermost first, up to `root`. */
  ghost predicate StackOk(h: Heap, cur: Tree, stack: seq<Frame>, root: Tree)
    decreases |stack|
  {
    if stack == [] then cur == root
    else
      var f := stack[0];
      && cur.id in h.parent && h.parent[cur.id] == To(f.node.id) && cur.id in h.next
      && RepKids(h, f.rest, f.node.id, h.next[cur.id])
      && Rep(h, f.node) && Size(cur) + Sizes(f.rest) < Size(f.node)
      && StackOk(h, f.node, stack[1..], root)
  }

  /** Completing the groups around the present one, given its outcome. */
  ghost function Resume(stack: seq<Frame>, res: (seq<Call>, int), visit: Visitor): (seq<Call>, int) {
    if res.1 != 0 || stack == [] then res
    else Resume(stack[1..], Finish(stack[0].node, stack[0].rest, res.0, visit), visit)
  }

  ghost function Left(stack: seq<Frame>): nat {
    if stack == [] then 0 else 1 + 2 * Sizes(stack[0].rest) + Left(stack[1..])
  }

  lemma {:induction false} SmallerThanRoot(h: Heap, cur: Tree, stack: seq<Frame>, root: Tree)
    requires StackOk(h, cur, stack, root)
    ensures stack != [] ==> Size(cur) < Size(root)
    decreases |stack|
  {
    if stack != [] {
      SmallerThanRoot(h, stack[0].node, stack[1..], root);
    }
  }

  /** A group identifier stands for one tree only. */
  lemma {:induction false} RepUnique(h: Heap, t: Tree, t': Tree)
    requires Rep(h, t) && Rep(h, t') && t.id == t'.id
    ensures t == t'
    decreases t, 1
  {
    RepKidsUnique(h, t.kids, t'.kids, t.id, h.first[t.id]);
  }

  lemma {:induction false} RepKidsUnique(h: Heap, ks: seq<Tree>, ks': seq<Tree>, pid: nat, p: Ptr)
    requires RepKids(h, ks, pid, p) && RepKids(h, ks', pid, p)
    ensures ks == ks'
    decreases ks, 0
  {
    if ks != [] {
      RepUnique(h, ks[0], ks'[0]);
      RepKidsUnique(h, ks[1..], ks'[1..], pid, h.next[ks[0].id]);
      assert ks == [ks[0]] + ks[1..] && ks' == [ks'[0]] + ks'[1..];
    }
  }

  /** Inside the walked subtree the test `parent == from` holds only back at its root. */
  lemma NotFrom(h: Heap, cur: Tree, stack: seq<Frame>, root: Tree)
    requires StackOk(h, cur, stack, root) && Rep(h, cur) && Rep(h, root)
    ensures cur.id == root.id <==> stack == []
  {
    SmallerThanRoot(h, cur, stack, root);
    if cur.id == root.id {
      RepUnique(h, cur, root);
    }
  }

  /** `walk_tg_tree_from`. `entering` says whether control is at label `down` or in the sibling loop.
      `t` is the tree the pointers spell out. */
  method WalkTgTreeFrom(h: Heap, from: nat, visit: Visitor, ghost t: Tree) returns (ret: int, log: seq<Call>)
    requires Rep(h, t) && t.id == from
    ensures (log, ret) == Walk(t, [], visit)
    ensures Follows([], log, ret, Tour(t), visit)
  {
    hide Rep; hide Follows;
    WalkFollows(t, [], visit);
    ret, log := 0, [];
    var parent, child := from, Null;
    var entering := true;
    ghost var cur, ks: seq<Tree>, stack: seq<Frame> := t, [], [];
    while true
      invariant parent == cur.id && Rep(h, cur) && StackOk(h, cur, stack, t)
      invariant entering ==> Resume(stack, Walk(cur, log, visit), visit) == Walk(t, [], visit)
      invariant !entering ==> RepKids(h, ks, cur.id, child) && Sizes(ks) < Size(cur)
      invariant !entering ==> Resume(stack, Finish(cur, ks, log, visit), visit) == Walk(t, [], visit)
      decreases Left(stack) + (if entering then 2 * Size(cur) else 1 + 2 * Sizes(ks)), !entering
    {
      if entering {
        log := log + [Down(parent)];
        ret := visit(log);
        if ret != 0 {
          return;
        }
        RepFirst(h, cur);
        child := h.first[parent];
        ks := cur.kids;
        entering := false;
      } else if child.To? {
        EnterChild(h, cur, ks, child, stack, t, log, visit);
        stack := [Frame(cur, ks[1..])] + stack;
        cur := ks[0];
        parent := child.id;
        entering := true;
      } else {
        assert ks == [];
        log := log + [Up(parent)];
        ret := visit(log);
        NotFrom(h, cur, stack, t);
        if ret != 0 || parent == from {
          return;
        }
        var up := h.parent[parent];
        child := h.next[parent];
        parent := up.id;
        cur, ks, stack := stack[0].node, stack[0].rest, stack[1..];
      }
    }
  }

  lemma RepFirst(h: Heap, t: Tree)
    requires Rep(h, t)
    ensures t.id in h.first && RepKids(h, t.kids, t.id, h.first[t.id])
  {
  }

  lemma EnterChild(h: Heap, cur: Tree, ks: seq<Tree>, child: Ptr, stack: seq<Frame>, root: Tree, log: seq<Call>,
      visit: Visitor)
    requires Rep(h, cur) && RepKids(h, ks, cur.id, child) && child.To? && StackOk(h, cur, stack, root)
    requires Sizes(ks) < Size(cur)
    ensures ks != [] && child.id == ks[0].id && Rep(h, ks[0])
    ensures StackOk(h, ks[0], [Frame(cur, ks[1..])] + stack, root)
    ensures Resume([Frame(cur, ks[1..])] + stack, Walk(ks[0], log, visit), visit)
            == Resume(stack, Finish(cur, ks, log, visit), visit)
  {
    assert ([Frame(cur, ks[1..])] + stack)[1..] == stack;
  }
}
