/** One CPU's real-time run queue as the source keeps it: fields updated in place by loops over
    chains of entities. Every method is proved to compute the function of `RtGroupQueues` that
    describes it. */
module RtGroupRq {
  import opened Lists
  import opened RtGroupQueues
  import opened RtGroupSave

  /** `rt_se->back`. */
  datatype Pointer = Null | To(e: Entity)

  /** `__delist_rt_entity`, `dec_rt_tasks` and `dec_rt_prio` on one `rt_rq`. */
  method DelistEntity(q: RtRq, e: Entity, p: RtPrio, nr: int, rr: int, boosted: int) returns (r: RtRq)
    requires ArrayShape(q)
    ensures r == Delist(q, e, p, nr, rr, boosted)
  {
    r := q.(list := Unlink(q.list, e));
    if r.list[p] == [] {
      r := r.(bitmap := r.bitmap[p := false]);
    }
    r := r.(nr := r.nr - nr, rr := r.rr - rr);
    if r.nr != 0 {
      if p == r.hi {
        r := r.(hi := FirstBit(r.bitmap, 0));
      }
    } else {
      r := r.(hi := MAX_RT_PRIO);
    }
    r := r.(nrBoosted := r.nrBoosted - boosted);
  }

  /** The linking half of `__enqueue_rt_entity`, `inc_rt_tasks` and `inc_rt_prio` on one `rt_rq`. */
  method EnlistEntity(q: RtRq, e: Entity, p: RtPrio, nr: int, rr: int, boosted: int, head: bool) returns (r: RtRq)
    requires ArrayShape(q)
    ensures r == Enlist(q, e, p, nr, rr, boosted, head)
  {
    if head {
      r := q.(list := q.list[p := [e] + q.list[p]]);
    } else {
      r := q.(list := q.list[p := q.list[p] + [e]]);
    }
    r := r.(bitmap := r.bitmap[p := true]);
    r := r.(nr := r.nr + nr, rr := r.rr + rr);
    if p < r.hi {
      r := r.(hi := p);
    }
    r := r.(nrBoosted := r.nrBoosted + boosted);
  }

  /** `dec_rt_tasks` and `dec_rt_prio` alone. */
  method LightenRq(q: RtRq, p: int, nr: int, rr: int, boosted: int) returns (r: RtRq)
    requires ArrayShape(q)
    ensures r == Lighten(q, p, nr, rr, boosted)
  {
    r := q.(nr := q.nr - nr, rr := q.rr - rr);
    if r.nr != 0 {
      if p == r.hi {
        r := r.(hi := FirstBit(r.bitmap, 0));
      }
    } else {
      r := r.(hi := MAX_RT_PRIO);
    }
    r := r.(nrBoosted := r.nrBoosted - boosted);
  }

  /** `inc_rt_tasks` and `inc_rt_prio` alone. */
  method WeightRq(q: RtRq, p: int, nr: int, rr: int, boosted: int) returns (r: RtRq)
    requires ArrayShape(q)
    ensures r == Weight(q, p, nr, rr, boosted)
  {
    r := q.(nr := q.nr + nr, rr := q.rr + rr);
    if p < r.hi {
      r := r.(hi := p);
    }
    r := r.(nrBoosted := r.nrBoosted + boosted);
  }

  /** `rt_se->parent`. */
  function Parent(s: State, e: Entity): (p: Pointer)
    requires WellFormed(s) && Known(s, e)
    ensures p.To? ==> Known(s, p.e) && p.e.Group? && p.e.id == Owner(s, e)
  {
    if Owner(s, e) == ROOT then Null else To(Group(Owner(s, e)))
  }

  /** The part of the chain of `e` from `se` up to the root. */
  ghost function From(s: State, e: Entity, se: Pointer): set<Entity>
    requires WellFormed(s) && Known(s, e) && (se.To? ==> Known(s, se.e))
  {
    if se.Null? then {} else Chain(s, se.e)
  }

  /** Pointer `back` of chain member `x` leads one step down towards `e`. */
  ghost predicate BackOk(s: State, back: map<Entity, Pointer>, e: Entity, x: Entity)
    requires WellFormed(s) && Known(s, e)
  {
    && x in back
    && (if x == e then back[x] == Null
        else back[x].To? && back[x].e in Chain(s, e) && Known(s, back[x].e) && Parent(s, back[x].e) == To(x))
  }

  /** The upward loop stands at `se`, having last linked `b`. */
  ghost predicate Linking(s: State, back: map<Entity, Pointer>, e: Entity, se: Pointer, b: Pointer)
    requires WellFormed(s) && Known(s, e)
  {
    && (se.To? ==> Known(s, se.e))
    && From(s, e, se) <= Chain(s, e)
    && (se == To(e) <==> b == Null)
    && (se.To? && se.e != e ==> se.e.Group? && se.e.id <= Owner(s, e))
    && (b.To? ==> b.e in Chain(s, e) && Known(s, b.e) && Parent(s, b.e) == se)
    && (forall x :: x in Chain(s, e) && x !in From(s, e, se) ==> BackOk(s, back, e, x))
  }

  lemma LinkStart(s: State, back: map<Entity, Pointer>, e: Entity)
    requires WellFormed(s) && Known(s, e)
    ensures Linking(s, back, e, To(e), Null)
  {
  }

  lemma LinkMoreIds(s: State, e: Entity, se: Entity)
    requires WellFormed(s) && Known(s, e) && Known(s, se)
    requires se == e || (se.Group? && se.id <= Owner(s, e))
    ensures var p := Parent(s, se);
            && From(s, e, To(se)) == From(s, e, p) + {se}
            && (p.To? ==> p.e != e && p.e.id <= Owner(s, e) && (se.Group? ==> p.e.id < se.id))
  {
  }

  lemma LinkMore(s: State, back: map<Entity, Pointer>, e: Entity, se: Pointer, b: Pointer)
    requires WellFormed(s) && Known(s, e) && Linking(s, back, e, se, b) && se.To?
    ensures Known(s, se.e) && (se.e != e ==> se.e.Group?)
    ensures Linking(s, back[se.e := b], e, Parent(s, se.e), se)
    ensures var p := Parent(s, se.e); p.To? ==> p.e != e && p.e.id <= Owner(s, e) && (se.e.Group? ==> p.e.id < se.e.id)
  {
    hide WellFormed; hide Chain;
    var p := Parent(s, se.e);
    LinkMoreIds(s, e, se.e);
    forall x | x in Chain(s, e) && x !in From(s, e, p) ensures BackOk(s, back[se.e := b], e, x) {
      if x != se.e {
        assert BackOk(s, back, e, x);
      }
    }
  }

  lemma LinkDone(s: State, back: map<Entity, Pointer>, e: Entity, b: Pointer)
    requires WellFormed(s) && Known(s, e) && Linking(s, back, e, Null, b)
    ensures b.To? && b.e in Chain(s, e) && Known(s, b.e) && Parent(s, b.e) == Null
    ensures forall x :: x in Chain(s, e) ==> BackOk(s, back, e, x)
  {
  }

  /** The state in which the top-down loop of `dequeue_rt_stack` reaches `x`. */
  ghost function Before(s: State, x: Entity): State
    requires Consistent(s) && Known(s, x)
  {
    if Owner(s, x) == ROOT then s else RemoveDown(s, Group(Owner(s, x)))
  }

  lemma BeforeStep(s: State, x: Entity)
    requires Consistent(s) && Known(s, x)
    ensures var m := Before(s, x);
            && Consistent(m) && Known(m, x) && Owner(m, x) == Owner(s, x) && Group(Owner(s, x)) !in m.onRq
            && (x in m.onRq ==> 0 <= Prio(m, x) < MAX_RT_PRIO)
            && RemoveDown(s, x) == if x in m.onRq then Remove(m, x) else m
  {
    hide QueueOk; hide EntityOk; hide Remove;
    var m := Before(s, x);
    RootIsOff(s);
    if Owner(s, x) != ROOT {
      UnlinkedKnown(s, m, Group(Owner(s, x)));
      FrameKnown(s, m, Above(s.tree, s.tree.parent[Owner(s, x)]), Above(s.tree, Owner(s, x)), x);
      assert Group(Owner(s, x)) in Chain(s, Group(Owner(s, x)));
    }
    if x in m.onRq {
      RemoveKeeps(m, x);
    }
  }

  /** Following `back` from `x` moves one step down the chain, and stops after `e`. */
  lemma BackStep(s: State, back: map<Entity, Pointer>, e: Entity, x: Entity)
    requires Consistent(s) && Known(s, e) && x in Chain(s, e) && Known(s, x) && BackOk(s, back, e, x)
    ensures x in back && (x == e <==> back[x] == Null)
    ensures x != e ==> x.Group? && x.id <= Owner(s, e)
    ensures x != e ==>
              var y := back[x].e;
              && y in Chain(s, e) && Known(s, y) && Before(s, y) == RemoveDown(s, x)
              && (y != e ==> y.Group? && x.id < y.id <= Owner(s, e))
  {
    hide QueueOk; hide EntityOk; hide RemoveDown;
  }

  lemma LinkOne(s: State, e: Entity, head: bool, guarded: bool)
    requires Consistent(s) && Known(s, e) && Off(s, Chain(s, e))
    ensures e !in s.onRq && Group(Owner(s, e)) !in s.onRq
    ensures Admits(s, e) ==> 0 <= Prio(s, e) < MAX_RT_PRIO
    ensures var m := Link(s, e, head, guarded);
            && ROOT in m.rt
            && (Parent(s, e) == Null ==> LinkUp(s, e, head, guarded) == m)
            && (Parent(s, e) != Null ==>
                 var p := Group(Owner(s, e));
                 && Consistent(m) && Known(m, p) && Off(m, Chain(m, p)) && Owner(m, p) < Owner(s, e)
                 && LinkUp(s, e, head, guarded) == LinkUp(m, p, head, guarded))
  {
    hide QueueOk; hide EntityOk; hide Link; hide Frame;
    RootIsOff(s);
    var q := Owner(s, e);
    var a := Above(s.tree, q);
    LinkStep(s, e, head, guarded, a);
    if q != ROOT {
      FrameKnown(s, Link(s, e, head, guarded), a, a + {e}, Group(q));
    }
  }

  // ----- The same loops for flags that do not move

  ghost function SaveBefore(s: State, x: Entity): State
    requires WellFormed(s) && Known(s, x)
  {
    if Owner(s, x) == ROOT then s else SaveDown(s, Group(Owner(s, x)))
  }

  lemma SaveBeforeStep(s: State, x: Entity)
    requires WellFormed(s) && Known(s, x)
    ensures var m := SaveBefore(s, x);
            && WellFormed(m) && Known(m, x) && Owner(m, x) == Owner(s, x)
            && SaveDown(s, x) == if x in m.onRq then SaveOff(m, x) else m
  {
    hide SaveOff;
    if Owner(s, x) != ROOT {
      NearUp(s, SaveBefore(s, x), x);
    }
  }

  lemma SaveBackStep(s: State, back: map<Entity, Pointer>, e: Entity, x: Entity)
    requires WellFormed(s) && Known(s, e) && x in Chain(s, e) && Known(s, x) && BackOk(s, back, e, x)
    ensures x in back && (x == e <==> back[x] == Null)
    ensures x != e ==> x.Group? && x.id <= Owner(s, e)
    ensures x != e ==>
              var y := back[x].e;
              && y in Chain(s, e) && Known(s, y) && SaveBefore(s, y) == SaveDown(s, x)
              && (y != e ==> y.Group? && x.id < y.id <= Owner(s, e))
  {
    hide SaveDown;
  }

  lemma KeepStep(s: State, e: Entity, guarded: bool)
    requires WellFormed(s) && Known(s, e)
    ensures var m := KeepOn(s, e, guarded);
            && WellFormed(m) && KeepOn(s, e, guarded) == (if guarded && (e.Task? || s.rt[e.id].nr == 0) then s
               else KeepOn(s, e, false))
            && (Owner(s, e) == ROOT ==> KeepUp(s, e, guarded) == m)
            && (Owner(s, e) != ROOT ==>
                 var p := Group(Owner(s, e));
                 Known(m, p) && Owner(m, p) < Owner(s, e) && KeepUp(s, e, guarded) == KeepUp(m, p, guarded)
                 && (InRangeUp(s, e, guarded) ==> InRangeUp(m, p, guarded)))
    ensures InRangeUp(s, e, guarded) && !(guarded && (e.Task? || s.rt[e.id].nr == 0)) ==> InRange(s, e, false)
  {
    NearKnown(s, KeepOn(s, e, guarded), e);
    hide SaveOn; hide DelistOnly; hide Near; hide Throttled;
  }

  /** Between the two halves of a pair the root's share can be taken out again. */
  lemma MidTop(rq: Rq, t: nat)
    requires Sound(rq) && t in rq.s.task
    ensures var m := Save(rq, t);
            && ROOT in m.s.rt && (m.rtQueued ==> m.s.rt[ROOT].nr > 0) && m.nrRunning >= Share(m)
  {
    hide QueueOk; hide EntityOk; hide KeepUp; hide SaveDown; hide CompleteOff;
    var e := Task(t);
    var d := SaveDown(rq.s, e);
    NearKnown(rq.s, d, e);
    SaveDownNonNegative(rq.s, e);
    KeepUpNonNegative(d, e, true);
    NonEmpty(rq.s, ROOT);
    hide Consistent;
  }

  lemma RootKnown(s: State)
    requires WellFormed(s)
    ensures ROOT in s.rt
  {
  }

  ghost function UpperBound(groups: set<nat>): (b: nat)
    ensures forall g :: g in groups ==> g <= b
  {
    if groups == {} then 0 else
    var g :| g in groups;
    var b := UpperBound(groups - {g});
    assert forall x :: x in groups ==> x == g || x in groups - {g};
    if b < g then g else b
  }

  class RunQueue {
    const tree: Tree
    var task: map<nat, TaskAttr>
    var rt: map<nat, RtRq>
    var onRq: set<Entity>
    var onList: set<Entity>
    var rtQueued: bool
    var nrRunning: int
    var back: map<Entity, Pointer>

    function S(): State
      reads this
    {
      State(tree, task, rt, onRq, onList)
    }

    ghost function View(): Rq
      reads this
    {
      Rq(S(), rtQueued, nrRunning)
    }

    /** Empty queues for every group of the tree. */
    constructor (tree: Tree, task: map<nat, TaskAttr>, others: nat)
      requires tree.Valid() && forall t :: t in task ==> task[t].home in tree.groups
      ensures View() == Init(tree, task, others) && Sound(View())
    {
      this.tree, this.task, nrRunning := tree, task, others;
      rt := map g | g in tree.groups :: EmptyQueue();
      onRq, onList, rtQueued, back := {}, {}, false, map[];
      new;
      hide Sound;
      InitSound(tree, task, others);
    }

    /** `__dequeue_rt_entity`. The asserts are its warnings: on a list, and no better than the best. */
    method DequeueOne(e: Entity)
      requires Consistent(S()) && e in onRq && Group(Owner(S(), e)) !in onRq
      modifies this`rt, this`onRq, this`onList
      ensures 0 <= Prio(old(S()), e) < MAX_RT_PRIO && S() == Remove(old(S()), e)
    {
      hide QueueOk; hide EntityOk; hide Delist;
      RemoveKeeps(S(), e);
      var s := S();
      var q, p := Owner(s, e), Prio(s, e);
      assert e in onList && p >= rt[q].hi;
      var rq := DelistEntity(rt[q], e, p, Load(s, e, Running), Load(s, e, RoundRobin), Load(s, e, Boosted));
      rt := rt[q := rq];
      onList := onList - {e};
      onRq := onRq - {e};
    }

    /** `__enqueue_rt_entity` of an entity that `dequeue_rt_stack` has taken off; the branch that
        delists a group still linked is therefore never taken. */
    method EnqueueOne(e: Entity, head: bool)
      requires Consistent(S()) && Known(S(), e) && e !in onRq && Group(Owner(S(), e)) !in onRq
      modifies this`rt, this`onRq, this`onList
      ensures Admits(old(S()), e) ==> 0 <= Prio(old(S()), e) < MAX_RT_PRIO
      ensures S() == Insert(old(S()), e, head)
    {
      hide QueueOk; hide EntityOk; hide Enlist;
      InsertKeeps(S(), e, head);
      assert e !in onList;
      if e.Group? && (Throttled(rt[e.id]) || rt[e.id].nr == 0) {
        return;
      }
      var s := S();
      var q, p := Owner(s, e), Prio(s, e);
      var rq := EnlistEntity(rt[q], e, p, Load(s, e, Running), Load(s, e, RoundRobin), Load(s, e, Boosted), head);
      rt := rt[q := rq];
      onList := onList + {e};
      onRq := onRq + {e};
    }

    /** `dequeue_top_rt_rq`. The assert is its `BUG_ON`. */
    method DequeueTopRq()
      requires ROOT in rt && (rtQueued ==> rt[ROOT].nr > 0) && nrRunning >= Share(View())
      modifies this`rtQueued, this`nrRunning
      ensures View() == DequeueTop(old(View()))
    {
      if !rtQueued {
        return;
      }
      assert nrRunning != 0;
      nrRunning := nrRunning - rt[ROOT].nr;
      rtQueued := false;
    }

    /** `enqueue_top_rt_rq`. */
    method EnqueueTopRq()
      requires ROOT in rt
      modifies this`rtQueued, this`nrRunning
      ensures View() == EnqueueTop(old(View()))
    {
      if rtQueued || Throttled(rt[ROOT]) {
        return;
      }
      if rt[ROOT].nr != 0 {
        nrRunning := nrRunning + rt[ROOT].nr;
        rtQueued := true;
      }
    }

    /** The first loop of `dequeue_rt_stack`: link the chain of `e` downwards and return its top. */
    method LinkBack(e: Entity) returns (top: Entity)
      requires WellFormed(S()) && Known(S(), e)
      modifies this`back
      ensures forall x :: x in Chain(S(), e) ==> BackOk(S(), back, e, x)
      ensures top in Chain(S(), e) && Known(S(), top) && Parent(S(), top) == Null
    {
      hide WellFormed; hide Linking;
      var se, b := To(e), Null;
      LinkStart(S(), back, e);
      while se.To?
        invariant Linking(old(S()), back, e, se, b)
        decreases if se.Null? then 0 else if se == To(e) then Owner(old(S()), e) + 2 else se.e.id + 1
      {
        LinkMore(S(), back, e, se, b);
        back := back[se.e := b];
        b, se := se, Parent(S(), se.e);
      }
      LinkDone(S(), back, e, b);
      top := b.e;
    }

    /** `dequeue_rt_stack`: take the chain of `e` off, top-down, starting at the root's queue. */
    method DequeueStack(e: Entity)
      requires Consistent(S()) && Known(S(), e)
      requires (rtQueued ==> rt[ROOT].nr > 0) && nrRunning >= Share(View())
      modifies this
      ensures View() == DequeueTop(old(View())).(s := RemoveDown(old(S()), e))
    {
      hide QueueOk; hide EntityOk; hide Remove; hide Frame; hide Off; hide Unlinked; hide DequeueTop;
      hide BackOk; hide RemoveDown; hide WellFormed; hide Above; hide Admits; hide Load;
      ghost var s0 := S();
      var top := LinkBack(e);
      DequeueTopRq();
      ghost var rq := View();
      ghost var b := back;
      var se := To(top);
      while se.To?
        invariant rtQueued == rq.rtQueued && nrRunning == rq.nrRunning && back == b
        invariant forall x :: x in Chain(s0, e) ==> BackOk(s0, b, e, x)
        invariant se.To? ==> se.e in Chain(s0, e) && Known(s0, se.e) && S() == Before(s0, se.e)
        invariant se.Null? ==> S() == RemoveDown(s0, e)
        decreases if se.Null? then 0 else if se.e == e then 1 else 2 + Owner(s0, e) - se.e.id
      {
        BeforeStep(s0, se.e);
        assert se.e in Chain(s0, e);
        BackStep(s0, back, e, se.e);
        if se.e in onRq {
          DequeueOne(se.e);
        }
        se := back[se.e];
      }
    }

    /** One turn of the bottom-up loops; `dequeue_rt_entity` passes over tasks and empty groups. */
    method LinkEntity(e: Entity, head: bool, guarded: bool)
      requires Consistent(S()) && Known(S(), e) && e !in onRq && Group(Owner(S(), e)) !in onRq
      modifies this`rt, this`onRq, this`onList
      ensures Admits(old(S()), e) ==> 0 <= Prio(old(S()), e) < MAX_RT_PRIO
      ensures S() == Link(old(S()), e, head, guarded)
    {
      hide QueueOk; hide EntityOk; hide Insert;
      InsertKeeps(S(), e, head);
      if !guarded || (e.Group? && rt[e.id].nr != 0) {
        EnqueueOne(e, head);
      }
    }

    /** `enqueue_rt_entity`, and `dequeue_rt_entity` when `guarded`: the chain of `e` leaves its queues
        and comes back bottom-up, on the second as far as its groups still have something to run. */
    method RequeueEntity(e: Entity, head: bool, guarded: bool)
      requires Consistent(S()) && Known(S(), e)
      requires (rtQueued ==> rt[ROOT].nr > 0) && nrRunning >= Share(View())
      modifies this
      ensures View() == Requeue(old(View()), e, head, guarded)
    {
      hide QueueOk; hide EntityOk; hide Link; hide Frame; hide Off; hide DequeueTop; hide EnqueueTop;
      hide LinkUp; hide WellFormed; hide Above; hide Admits; hide Linked; hide Unlinked; hide RemoveDown;
      DequeueStack(e);
      ghost var rq := View();
      ghost var m := S();
      UnlinkedKnown(old(S()), m, e);
      var se := To(e);
      while se.To?
        invariant rtQueued == rq.rtQueued && nrRunning == rq.nrRunning
        invariant se.To? ==> Consistent(S()) && Known(S(), se.e) && Off(S(), Chain(S(), se.e))
        invariant se.To? ==> LinkUp(S(), se.e, head, guarded) == LinkUp(m, e, head, guarded)
        invariant se.Null? ==> S() == LinkUp(m, e, head, guarded)
        invariant ROOT in rt
        decreases if se.Null? then 0 else Owner(S(), se.e) + 1
      {
        ghost var s := S();
        LinkOne(s, se.e, head, guarded);
        var p := Parent(S(), se.e);
        LinkEntity(se.e, head, guarded);
        se := p;
      }
      EnqueueTopRq();
    }

    /** `__dequeue_rt_entity` without MOVE. */
    method SaveOne(e: Entity)
      requires WellFormed(S()) && Known(S(), e)
      modifies this`rt, this`onRq
      ensures S() == SaveOff(old(S()), e)
    {
      hide Lighten;
      var s := S();
      var q := Owner(s, e);
      var r := LightenRq(rt[q], Prio(s, e), Load(s, e, Running), Load(s, e, RoundRobin), Load(s, e, Boosted));
      rt, onRq := rt[q := r], onRq - {e};
    }

    /** `__delist_rt_entity` alone. */
    method DelistOne(e: Entity)
      requires WellFormed(S()) && Known(S(), e) && 0 <= Prio(S(), e) < MAX_RT_PRIO
      modifies this`rt, this`onList
      ensures S() == DelistOnly(old(S()), e)
    {
      var s := S();
      var q, prio := Owner(s, e), Prio(s, e);
      var r := rt[q];
      assert ArrayShape(r);
      hide WellFormed;
      r := r.(list := Unlink(r.list, e));
      if r.list[prio] == [] {
        r := r.(bitmap := r.bitmap[prio := false]);
      }
      rt, onList := rt[q := r], onList - {e};
    }

    /** `__enqueue_rt_entity` without MOVE. */
    method KeepOne(e: Entity)
      requires WellFormed(S()) && Known(S(), e) && InRange(S(), e, false)
      modifies this`rt, this`onRq, this`onList
      ensures S() == KeepOn(old(S()), e, false)
    {
      hide Near; hide DelistOnly; hide Weight;
      if e.Group? && (Throttled(rt[e.id]) || rt[e.id].nr == 0) {
        if e in onList {
          DelistOne(e);
        }
        return;
      }
      var s := S();
      var q := Owner(s, e);
      var r := WeightRq(rt[q], Prio(s, e), Load(s, e, Running), Load(s, e, RoundRobin), Load(s, e, Boosted));
      rt, onRq := rt[q := r], onRq + {e};
    }

    /** `dequeue_rt_stack` without MOVE. */
    method SaveStack(e: Entity)
      requires WellFormed(S()) && Known(S(), e)
      requires (rtQueued ==> rt[ROOT].nr > 0) && nrRunning >= Share(View())
      modifies this
      ensures View() == DequeueTop(old(View())).(s := SaveDown(old(S()), e))
    {
      hide SaveOff; hide BackOk; hide SaveDown; hide WellFormed; hide Above; hide DequeueTop; hide Load;
      ghost var s0 := S();
      var top := LinkBack(e);
      DequeueTopRq();
      ghost var rq := View();
      ghost var b := back;
      var se := To(top);
      while se.To?
        invariant rtQueued == rq.rtQueued && nrRunning == rq.nrRunning && back == b
        invariant forall x :: x in Chain(s0, e) ==> BackOk(s0, b, e, x)
        invariant se.To? ==> se.e in Chain(s0, e) && Known(s0, se.e) && S() == SaveBefore(s0, se.e)
        invariant se.Null? ==> S() == SaveDown(s0, e)
        decreases if se.Null? then 0 else if se.e == e then 1 else 2 + Owner(s0, e) - se.e.id
      {
        SaveBeforeStep(s0, se.e);
        assert se.e in Chain(s0, e);
        SaveBackStep(s0, back, e, se.e);
        if se.e in onRq {
          SaveOne(se.e);
        }
        se := back[se.e];
      }
    }

    /** `dequeue_rt_entity` with SAVE when `guarded`, `enqueue_rt_entity` with RESTORE otherwise. */
    method KeepEntity(e: Entity, guarded: bool)
      requires WellFormed(S()) && Known(S(), e)
      requires Known(SaveDown(S(), e), e) && InRangeUp(SaveDown(S(), e), e, guarded)
      requires (rtQueued ==> rt[ROOT].nr > 0) && nrRunning >= Share(View())
      modifies this
      ensures ROOT in KeepUp(SaveDown(old(S()), e), e, guarded).rt
      ensures View() == EnqueueTop(DequeueTop(old(View())).(s := KeepUp(SaveDown(old(S()), e), e, guarded)))
    {
      hide KeepOn; hide SaveDown; hide KeepUp; hide WellFormed; hide DequeueTop; hide EnqueueTop; hide Near;
      hide InRangeUp; hide InRange;
      ghost var s0 := S();
      NearKnown(s0, SaveDown(s0, e), e);
      SaveStack(e);
      ghost var rq := View();
      ghost var m := S();
      var se := To(e);
      while se.To?
        invariant rtQueued == rq.rtQueued && nrRunning == rq.nrRunning
        invariant WellFormed(S()) && (se.To? ==> Known(S(), se.e) && InRangeUp(S(), se.e, guarded))
        invariant se.To? ==> KeepUp(S(), se.e, guarded) == KeepUp(m, e, guarded)
        invariant se.Null? ==> S() == KeepUp(m, e, guarded)
        decreases if se.Null? then 0 else Owner(S(), se.e) + 1
      {
        KeepStep(S(), se.e, guarded);
        var p := Parent(S(), se.e);
        if !guarded || (se.e.Group? && rt[se.e.id].nr != 0) {
          KeepOne(se.e);
        }
        se := p;
      }
      RootKnown(S());
      EnqueueTopRq();
    }

    /** `dequeue_task_rt` with SAVE and then `enqueue_task_rt` with RESTORE: the run queue comes back as it was
        exactly when the pair loses no group. */
    method SaveRestore(t: nat)
      requires Sound(View()) && t in task && Task(t) in onRq
      modifies this
      ensures ROOT in rt && onRq == old(onRq) && rtQueued == old(rtQueued) && nrRunning == old(nrRunning)
      ensures View() == old(View()) <==> !Loses(old(S()), t)
    {
      hide QueueOk; hide EntityOk; hide KeepUp; hide SaveDown; hide Loses; hide CompleteOff; hide WellFormed;
      hide InRangeUp;
      ghost var rq, s := View(), S();
      RootKnown(s);
      NonEmpty(s, ROOT);
      PairRestoresIff(rq, t);
      PairInRange(s, t);
      MidTop(rq, t);
      TallySame(Restore(Save(rq, t), t).s, s);
      hide Consistent;
      KeepEntity(Task(t), true);
      assert View() == Save(rq, t);
      KeepEntity(Task(t), false);
      assert View() == Restore(Save(rq, t), t);
    }

    /** `enqueue_task_rt`. */
    method EnqueueTask(t: nat, head: bool)
      requires Sound(View()) && t in task
      modifies this
      ensures View() == Step(old(View()), Enqueue(t, head)) && Sound(View())
      ensures Task(t) in onRq && forall u :: u != t ==> (Task(u) in onRq <==> Task(u) in old(onRq))
    {
      hide QueueOk; hide EntityOk; hide Requeue; hide CompleteOff;
      StepKeeps(View(), Enqueue(t, head));
      Widen(View().s, Task(t));
      RequeueKeeps(View(), Task(t), head, false);
      RequeueEntity(Task(t), head, false);
    }

    /** `dequeue_task_rt`. */
    method DequeueTask(t: nat)
      requires Sound(View()) && t in task
      modifies this
      ensures View() == Step(old(View()), Dequeue(t)) && Sound(View())
      ensures Task(t) !in onRq && forall u :: u != t ==> (Task(u) in onRq <==> Task(u) in old(onRq))
    {
      hide QueueOk; hide EntityOk; hide Requeue; hide CompleteOff;
      StepKeeps(View(), Dequeue(t));
      Widen(View().s, Task(t));
      RequeueKeeps(View(), Task(t), false, true);
      RequeueEntity(Task(t), false, true);
    }

    /** The part of `sched_rt_runtime_exceeded` that throttles, with `sched_rt_rq_dequeue`. */
    method ThrottleRq(q: nat)
      requires Sound(View()) && q in rt
      modifies this
      ensures View() == Step(old(View()), Overrun(q)) && Sound(View())
    {
      hide QueueOk; hide EntityOk; hide Requeue; hide CompleteOff; hide DequeueTop;
      StepKeeps(View(), Overrun(q));
      FlagKeeps(View(), q, true);
      ghost var rq := SetThrottled(View(), q, true);
      rt := rt[q := rt[q].(throttled := true)];
      assert View() == rq;
      if Throttled(rt[q]) {
        if q == ROOT {
          DequeueTopRq();
        } else if Group(q) in onRq {
          RequeueEntity(Group(q), false, true);
        }
      }
    }

    /** Lifting the throttle, with `sched_rt_rq_enqueue`. */
    method UnthrottleRq(q: nat)
      requires Sound(View()) && q in rt
      modifies this
      ensures View() == Step(old(View()), Refill(q)) && Sound(View())
    {
      hide QueueOk; hide EntityOk; hide Requeue; hide CompleteOff; hide EnqueueTop;
      StepKeeps(View(), Refill(q));
      FlagKeeps(View(), q, false);
      ghost var rq := SetThrottled(View(), q, false);
      rt := rt[q := rt[q].(throttled := false)];
      assert View() == rq;
      if rt[q].nr != 0 {
        if q == ROOT {
          EnqueueTopRq();
        } else if Group(q) !in onRq {
          RequeueEntity(Group(q), false, false);
        }
      }
    }

    /** `_pick_next_task_rt`: it always finds a task, the foremost one all the way down, and none that may
        run now has a better priority. */
    method PickNextTask() returns (t: nat)
      requires Valid(View()) && rtQueued
      ensures Eligible(S(), t) && Foremost(S(), Task(t))
      ensures forall u :: Eligible(S(), u) ==> task[t].prio <= task[u].prio
    {
      hide QueueOk; hide EntityOk; hide CompleteOff; hide FirstEntity; hide FirstBit;
      var s := S();
      ghost var bound := UpperBound(s.tree.groups);
      var q := ROOT;
      FirstEntityIs(s, q);
      var e := FirstEntity(s, q);
      while e.Group?
        invariant q in s.rt && s.rt[q].nr > 0 && s.rt[q].hi == s.rt[ROOT].hi && e == FirstEntity(s, q)
        invariant Above(s.tree, q) <= s.onRq && (q != ROOT ==> Foremost(s, Group(q)))
        decreases bound - q
      {
        FirstEntityIs(s, q);
        q := e.id;
        e := FirstEntity(s, q);
      }
      FirstEntityIs(s, q);
      t := e.id;
      forall u | Eligible(s, u) ensures task[t].prio <= task[u].prio {
        HighestOfAll(s, u);
      }
    }
  }
}
