/** The run queues of the real-time class on one CPU when group scheduling is on: a tree of
    `rt_rq`s in which every group but the root is itself an entity queued on its parent.

    The pure functions below say what each routine does to the state; the class in `RtGroupRq` runs
    the source's loops over entity chains and is proved to compute them. */
module RtGroupQueues {
  import opened Lists

  /** The root group's queue, `rq->rt`. */
  const ROOT: nat := 0

  datatype Entity = Task(id: nat) | Group(id: nat)

  type RtPrio = p: int | 0 <= p < 100

  datatype TaskAttr = TaskAttr(home: nat, prio: RtPrio, normalPrio: int, rr: bool)

  /** One `rt_rq`: `list` and `bitmap` are its `rt_prio_array`, `hi` is `highest_prio.curr`. */
  datatype RtRq = RtRq(list: seq<seq<Entity>>, bitmap: seq<bool>,
                       nr: int, rr: int, nrBoosted: int, hi: int, throttled: bool)

  /** The group tree. A group is created after its parent, so identifiers fall towards the root. */
  datatype Tree = Tree(groups: set<nat>, parent: map<nat, nat>) {
    ghost predicate Valid() {
      && ROOT in groups
      && forall g :: g in groups && g != ROOT ==> g in parent && parent[g] in groups && parent[g] < g
    }
  }

  datatype State = State(tree: Tree, task: map<nat, TaskAttr>, rt: map<nat, RtRq>,
                         onRq: set<Entity>, onList: set<Entity>)

  /** A CPU's run queue; `nrRunning` is `rq->nr_running`, all scheduling classes together. */
  datatype Rq = Rq(s: State, rtQueued: bool, nrRunning: int)

  /** The three counters an `rt_rq` sums over its queued entities. */
  datatype Stat = Running | RoundRobin | Boosted

  // ----- Shape of the tree

  ghost predicate WellFormed(s: State) {
    && s.tree.Valid()
    && s.rt.Keys == s.tree.groups
    && (forall t :: t in s.task ==> s.task[t].home in s.rt)
    && (forall q :: q in s.rt ==> ArrayShape(s.rt[q]))
  }

  predicate ArrayShape(q: RtRq) {
    |q.list| == MAX_RT_PRIO && |q.bitmap| == MAX_RT_PRIO + 1 && q.bitmap[MAX_RT_PRIO]
  }

  predicate Known(s: State, e: Entity) {
    match e
    case Task(t) => t in s.task
    case Group(g) => g in s.rt && g != ROOT
  }

  /** `rt_rq_of_se`. */
  function Owner(s: State, e: Entity): (q: nat)
    requires WellFormed(s) && Known(s, e)
    ensures q in s.rt
    ensures e.Group? ==> q < e.id
  {
    match e
    case Task(t) => s.task[t].home
    case Group(g) => s.tree.parent[g]
  }

  /** The entities of group `q` and of the groups above it. */
  ghost function Above(tree: Tree, q: nat): (a: set<Entity>)
    requires tree.Valid() && q in tree.groups
    ensures forall x :: x in a ==> x.Group? && 0 < x.id <= q && x.id in tree.groups
    decreases q
  {
    if q == ROOT then {} else Above(tree, tree.parent[q]) + {Group(q)}
  }

  /** `e` and the group entities above it. */
  ghost function Chain(s: State, e: Entity): set<Entity>
    requires WellFormed(s) && Known(s, e)
  {
    Above(s.tree, Owner(s, e)) + {e}
  }

  // ----- What an entity is worth to its queue

  /** `rt_se_prio`. */
  function Prio(s: State, e: Entity): int
    requires Known(s, e)
  {
    match e
    case Task(t) => s.task[t].prio
    case Group(g) => s.rt[g].hi
  }

  /** `rt_se_nr_running`, `rt_se_rr_nr_running` and `rt_se_boosted`; an unknown entity weighs nothing. */
  function Load(s: State, e: Entity, k: Stat): int {
    if !Known(s, e) then 0 else
    match e
    case Task(t) => (match k
                     case Running => 1
                     case RoundRobin => if s.task[t].rr then 1 else 0
                     case Boosted => if s.task[t].prio != s.task[t].normalPrio then 1 else 0)
    case Group(g) => if k.Boosted? then (if s.rt[g].nrBoosted != 0 then 1 else 0) else Counter(s.rt[g], k)
  }

  function Counter(q: RtRq, k: Stat): int {
    match k
    case Running => q.nr
    case RoundRobin => q.rr
    case Boosted => q.nrBoosted
  }

  ghost function Sum(s: State, l: seq<Entity>, k: Stat): int {
    if l == [] then 0 else Load(s, l[0], k) + Sum(s, l[1..], k)
  }

  ghost function SumLists(s: State, ls: seq<seq<Entity>>, k: Stat): int {
    if ls == [] then 0 else Sum(s, ls[0], k) + SumLists(s, ls[1..], k)
  }

  // ----- Invariants

  /** `rt_rq_throttled`. */
  predicate Throttled(q: RtRq) {
    q.throttled && q.nrBoosted == 0
  }

  /** List `p` of queue `q` holds queued entities of `q` with priority `p`, each once. */
  ghost predicate PlacedAt(s: State, q: nat, p: int, l: seq<Entity>)
    requires WellFormed(s)
  {
    && Distinct(l)
    && forall e :: e in l ==> Known(s, e) && Owner(s, e) == q && Prio(s, e) == p && e in s.onRq
  }

  ghost predicate Placed(s: State, q: nat)
    requires WellFormed(s) && q in s.rt
  {
    forall p :: 0 <= p < MAX_RT_PRIO ==> PlacedAt(s, q, p, s.rt[q].list[p])
  }

  /** The bitmap and the cached highest priority are what a scan of the lists would find. */
  ghost predicate Cached(q: RtRq)
    requires ArrayShape(q)
  {
    && (forall p :: 0 <= p < MAX_RT_PRIO ==> (q.bitmap[p] <==> q.list[p] != []))
    && q.hi == FirstBit(q.bitmap, 0)
  }

  ghost predicate Counted(s: State, q: nat)
    requires q in s.rt
  {
    forall k :: Counter(s.rt[q], k) == SumLists(s, s.rt[q].list, k)
  }

  ghost predicate QueueOk(s: State, q: nat)
    requires WellFormed(s) && q in s.rt
  {
    Placed(s, q) && Cached(s.rt[q]) && Counted(s, q)
  }

  /** A queued entity is linked at its own priority, and a queued group has something to run. */
  ghost predicate EntityOk(s: State, e: Entity)
    requires WellFormed(s)
  {
    && Known(s, e)
    && 0 <= Prio(s, e) < MAX_RT_PRIO
    && e in s.rt[Owner(s, e)].list[Prio(s, e)]
    && (e.Group? ==> s.rt[e.id].nr > 0)
  }

  /** What holds even while a chain is being taken apart. */
  ghost predicate Consistent(s: State) {
    && WellFormed(s)
    && s.onList == s.onRq
    && (forall q :: q in s.rt ==> QueueOk(s, q))
    && (forall e :: e in s.onRq ==> EntityOk(s, e))
  }

  /** No entity of `c` is queued. */
  ghost predicate Off(s: State, c: set<Entity>) {
    s.onRq !! c
  }

  ghost predicate Runnable(q: RtRq) {
    q.nr > 0 && !Throttled(q)
  }

  /** Among the groups of `c`, exactly those with something to run and no throttle are queued. */
  ghost predicate CompleteOn(s: State, c: set<Entity>) {
    forall g :: g in s.rt && g != ROOT && Group(g) in c ==> (Group(g) in s.onRq <==> Runnable(s.rt[g]))
  }

  /** The same among the groups outside `c`. */
  ghost predicate CompleteOff(s: State, c: set<Entity>) {
    forall g :: g in s.rt && g != ROOT && Group(g) !in c ==> (Group(g) in s.onRq <==> Runnable(s.rt[g]))
  }

  ghost predicate Valid(rq: Rq) {
    && Consistent(rq.s)
    && CompleteOff(rq.s, {})
    && (rq.rtQueued <==> Runnable(rq.s.rt[ROOT]))
  }

  /** The real-time share of `rq->nr_running`. */
  ghost function Share(rq: Rq): int
    requires ROOT in rq.s.rt
  {
    if rq.rtQueued then rq.s.rt[ROOT].nr else 0
  }

  // ----- Entering and leaving one queue

  /** `__delist_rt_entity` and `dec_rt_tasks` on queue `q`, for an entity of priority `p`. */
  function Delist(q: RtRq, e: Entity, p: RtPrio, nr: int, rr: int, boosted: int): (r: RtRq)
    requires ArrayShape(q)
    ensures ArrayShape(r)
  {
    var list := Unlink(q.list, e);
    var bitmap := if list[p] == [] then q.bitmap[p := false] else q.bitmap;
    var hi := if q.nr == nr then MAX_RT_PRIO else if p == q.hi then FirstBit(bitmap, 0) else q.hi;
    RtRq(list, bitmap, q.nr - nr, q.rr - rr, q.nrBoosted - boosted, hi, q.throttled)
  }

  /** The linking half of `__enqueue_rt_entity`, with `inc_rt_tasks`. */
  function Enlist(q: RtRq, e: Entity, p: RtPrio, nr: int, rr: int, boosted: int, head: bool): (r: RtRq)
    requires ArrayShape(q)
    ensures ArrayShape(r)
  {
    var l := if head then [e] + q.list[p] else q.list[p] + [e];
    RtRq(q.list[p := l], q.bitmap[p := true], q.nr + nr, q.rr + rr, q.nrBoosted + boosted,
         if p < q.hi then p else q.hi, q.throttled)
  }

  /** `__dequeue_rt_entity` for flags that move the entity. */
  ghost function Remove(s: State, e: Entity): State
    requires WellFormed(s) && Known(s, e) && 0 <= Prio(s, e) < MAX_RT_PRIO
  {
    var q := Owner(s, e);
    var new_ := Delist(s.rt[q], e, Prio(s, e), Load(s, e, Running), Load(s, e, RoundRobin), Load(s, e, Boosted));
    s.(rt := s.rt[q := new_], onRq := s.onRq - {e}, onList := s.onList - {e})
  }

  /** A group is linked only when it has something to run and is not throttled. */
  ghost predicate Admits(s: State, e: Entity)
    requires Known(s, e)
  {
    e.Group? ==> !Throttled(s.rt[e.id]) && s.rt[e.id].nr != 0
  }

  /** `__enqueue_rt_entity` of an entity that is off its list, for flags that move it. */
  ghost function Insert(s: State, e: Entity, head: bool): State
    requires WellFormed(s) && Known(s, e)
    requires Admits(s, e) ==> 0 <= Prio(s, e) < MAX_RT_PRIO
  {
    if !Admits(s, e) then s else
    var q := Owner(s, e);
    var new_ := Enlist(s.rt[q], e, Prio(s, e), Load(s, e, Running), Load(s, e, RoundRobin), Load(s, e, Boosted), head);
    s.(rt := s.rt[q := new_], onRq := s.onRq + {e}, onList := s.onList + {e})
  }

  // ----- Sums

  /** The entities of `l` weigh the same in both states. */
  ghost predicate SameLoads(s: State, r: State, l: seq<Entity>) {
    forall e, k :: e in l ==> Load(s, e, k) == Load(r, e, k)
  }

  lemma {:induction false} SumFrame(s: State, r: State, l: seq<Entity>, k: Stat)
    requires SameLoads(s, r, l)
    ensures Sum(s, l, k) == Sum(r, l, k)
  {
    if l != [] {
      assert Load(s, l[0], k) == Load(r, l[0], k);
      SumFrame(s, r, l[1..], k);
    }
  }

  lemma {:induction false} SumListsFrame(s: State, r: State, ls: seq<seq<Entity>>, k: Stat)
    requires forall p :: 0 <= p < |ls| ==> SameLoads(s, r, ls[p])
    ensures SumLists(s, ls, k) == SumLists(r, ls, k)
  {
    if ls != [] {
      SumFrame(s, r, ls[0], k);
      SumListsFrame(s, r, ls[1..], k);
    }
  }

  lemma {:induction false} SumAppend(s: State, l: seq<Entity>, e: Entity, k: Stat)
    ensures Sum(s, l + [e], k) == Sum(s, l, k) + Load(s, e, k)
  {
    if l == [] {
      assert l + [e] == [e];
    } else {
      assert (l + [e])[1..] == l[1..] + [e];
      SumAppend(s, l[1..], e, k);
    }
  }

  lemma {:induction false} SumWithout(s: State, l: seq<Entity>, e: Entity, k: Stat)
    requires Distinct(l) && e in l
    ensures Sum(s, Without(l, e), k) == Sum(s, l, k) - Load(s, e, k)
  {
    if l[0] == e {
      assert e !in l[1..];
    } else {
      SumWithout(s, l[1..], e, k);
      assert Without(l, e)[1..] == Without(l[1..], e);
    }
  }

  lemma {:induction false} SumListsUpdate(s: State, ls: seq<seq<Entity>>, p: nat, l: seq<Entity>, k: Stat)
    requires p < |ls|
    ensures SumLists(s, ls[p := l], k) == SumLists(s, ls, k) - Sum(s, ls[p], k) + Sum(s, l, k)
  {
    if p == 0 {
      assert ls[p := l][1..] == ls[1..];
    } else {
      assert ls[p := l][1..] == ls[1..][p - 1 := l];
      SumListsUpdate(s, ls[1..], p - 1, l, k);
    }
  }

  ghost predicate AllWeigh(s: State, l: seq<Entity>) {
    forall e :: e in l ==> Load(s, e, Running) >= 1
  }

  lemma {:induction false} SumPositive(s: State, l: seq<Entity>)
    requires AllWeigh(s, l)
    ensures Sum(s, l, Running) >= 0 && (Sum(s, l, Running) > 0 <==> l != [])
  {
    if l != [] {
      SumPositive(s, l[1..]);
    }
  }

  /** When every entity weighs at least one, the count is non-zero iff some list is non-empty. */
  lemma {:induction false} SumListsPositive(s: State, ls: seq<seq<Entity>>)
    requires forall p :: 0 <= p < |ls| ==> AllWeigh(s, ls[p])
    ensures SumLists(s, ls, Running) >= 0
    ensures SumLists(s, ls, Running) > 0 <==> exists p :: 0 <= p < |ls| && ls[p] != []
  {
    if ls != [] {
      SumPositive(s, ls[0]);
      SumListsPositive(s, ls[1..]);
      if SumLists(s, ls[1..], Running) > 0 {
        var p :| 0 <= p < |ls[1..]| && ls[1..][p] != [];
        assert ls[p + 1] != [];
      }
      forall p | 0 <= p < |ls| && ls[p] != [] ensures SumLists(s, ls, Running) > 0 {
        if p > 0 {
          assert ls[1..][p - 1] != [];
        }
      }
    }
  }

  lemma ListsWeigh(s: State, q: nat)
    requires WellFormed(s) && q in s.rt && Placed(s, q)
    requires forall e :: e in s.onRq && e.Group? && Known(s, e) && Owner(s, e) == q ==> s.rt[e.id].nr > 0
    ensures forall p :: 0 <= p < MAX_RT_PRIO ==> AllWeigh(s, s.rt[q].list[p])
  {
    forall p | 0 <= p < MAX_RT_PRIO ensures AllWeigh(s, s.rt[q].list[p]) {
      assert PlacedAt(s, q, p, s.rt[q].list[p]);
    }
  }

  /** `rt_nr_running` is non-zero exactly when the cached highest priority is a real one. */
  lemma NonEmpty(s: State, q: nat)
    requires Consistent(s) && q in s.rt
    ensures s.rt[q].nr >= 0 && 0 <= s.rt[q].hi <= MAX_RT_PRIO
    ensures s.rt[q].nr > 0 <==> s.rt[q].hi < MAX_RT_PRIO
    ensures s.rt[q].hi < MAX_RT_PRIO ==> s.rt[q].list[s.rt[q].hi] != []
  {
    assert QueueOk(s, q);
    forall e | e in s.onRq && e.Group? && Known(s, e) && Owner(s, e) == q ensures s.rt[e.id].nr > 0 {
      assert EntityOk(s, e);
    }
    ListsWeigh(s, q);
    SumListsPositive(s, s.rt[q].list);
    assert Counter(s.rt[q], Running) == SumLists(s, s.rt[q].list, Running);
  }

  // ----- One step keeps consistency

  /** An entity looks the same in both states. */
  ghost predicate SameEntity(s: State, r: State, e: Entity)
    requires WellFormed(s) && WellFormed(r) && Known(s, e)
  {
    && Known(r, e) && Owner(s, e) == Owner(r, e) && Prio(s, e) == Prio(r, e)
    && (forall k :: Load(s, e, k) == Load(r, e, k))
    && (e.Group? ==> s.rt[e.id] == r.rt[e.id])
  }

  /** `r` differs from `s` only in queue `q` and in whether entity `e` of `q` is queued. */
  ghost predicate Touches(s: State, r: State, q: nat, e: Entity) {
    && WellFormed(s) && WellFormed(r)
    && q in s.rt && q in r.rt && Known(s, e) && Owner(s, e) == q
    && r == s.(rt := s.rt[q := r.rt[q]], onRq := r.onRq, onList := r.onList)
    && (forall x :: x != e ==> (x in r.onRq <==> x in s.onRq))
  }

  lemma Untouched(s: State, r: State, q: nat, e: Entity, x: Entity)
    requires Touches(s, r, q, e) && Known(s, x) && x != Group(q)
    ensures SameEntity(s, r, x)
  {
  }

  lemma QueueFrame(s: State, r: State, q: nat)
    requires WellFormed(s) && WellFormed(r) && q in s.rt && q in r.rt && r.rt[q] == s.rt[q]
    requires QueueOk(s, q)
    requires forall x :: x in s.onRq && Known(s, x) && Owner(s, x) == q ==> x in r.onRq && SameEntity(s, r, x)
    ensures QueueOk(r, q)
  {
    var ls := s.rt[q].list;
    forall p | 0 <= p < MAX_RT_PRIO ensures PlacedAt(r, q, p, ls[p]) && SameLoads(s, r, ls[p]) {
      assert PlacedAt(s, q, p, ls[p]);
    }
    forall k ensures Counter(r.rt[q], k) == SumLists(r, ls, k) {
      SumListsFrame(s, r, ls, k);
    }
  }

  /** No list mentions the entity of `q`, so a change of queue `q` leaves the others sound. */
  lemma OtherQueue(s: State, r: State, q: nat, e: Entity, q': nat)
    requires Touches(s, r, q, e) && Group(q) !in s.onRq
    requires q' in s.rt && q' != q && QueueOk(s, q')
    ensures QueueOk(r, q')
  {
    forall x | x in s.onRq && Known(s, x) && Owner(s, x) == q' ensures x in r.onRq && SameEntity(s, r, x) {
      Untouched(s, r, q, e, x);
    }
    QueueFrame(s, r, q');
  }

  lemma TouchesKeeps(s: State, r: State, q: nat, e: Entity)
    requires Consistent(s) && Touches(s, r, q, e) && Group(q) !in s.onRq
    requires r.onList == r.onRq && QueueOk(r, q)
    requires forall x :: x in r.onRq && Known(s, x) && Owner(s, x) == q ==> EntityOk(r, x)
    ensures Consistent(r)
  {
    hide QueueOk;
    forall q' | q' in r.rt ensures QueueOk(r, q') {
      if q' != q { OtherQueue(s, r, q, e, q'); }
    }
    forall x | x in r.onRq ensures EntityOk(r, x) {
      if x != e {
        assert EntityOk(s, x);
        Untouched(s, r, q, e, x);
      }
    }
  }

  /** The bitmap and the cached priority survive a removal, given that the count is non-zero exactly
      when something is left. */
  lemma DelistCached(q: RtRq, e: Entity, p: RtPrio, nr: int, rr: int, boosted: int)
    requires ArrayShape(q) && Cached(q) && e in q.list[p]
    requires forall i :: 0 <= i < MAX_RT_PRIO && i != p ==> e !in q.list[i]
    requires q.nr != nr <==> exists i :: 0 <= i < MAX_RT_PRIO && Unlink(q.list, e)[i] != []
    ensures q.hi <= p
    ensures Cached(Delist(q, e, p, nr, rr, boosted))
  {
    var r := Delist(q, e, p, nr, rr, boosted);
    forall i | 0 <= i < MAX_RT_PRIO ensures r.bitmap[i] <==> r.list[i] != [] {
      assert i != p ==> r.list[i] == q.list[i];
    }
    var first := FirstBit(r.bitmap, 0);
    if q.nr == nr {
      assert forall i :: 0 <= i < MAX_RT_PRIO ==> !r.bitmap[i];
    } else if p != q.hi {
      assert r.bitmap[q.hi] && forall j :: 0 <= j < q.hi ==> !r.bitmap[j];
    }
  }

  lemma EnlistCached(q: RtRq, e: Entity, p: RtPrio, nr: int, rr: int, boosted: int, head: bool)
    requires ArrayShape(q) && Cached(q)
    ensures Cached(Enlist(q, e, p, nr, rr, boosted, head))
  {
    var r := Enlist(q, e, p, nr, rr, boosted, head);
    assert forall j :: 0 <= j < r.hi ==> !q.bitmap[j];
    assert r.bitmap[r.hi];
  }

  /** The situation in which an entity may enter or leave its queue: the queue's own entity is off. */
  ghost predicate Free(s: State, e: Entity) {
    && WellFormed(s) && Known(s, e) && QueueOk(s, Owner(s, e))
    && Group(Owner(s, e)) !in s.onRq
  }

  lemma OnlyThere(s: State, e: Entity)
    requires Free(s, e)
    ensures forall i :: 0 <= i < MAX_RT_PRIO && i != Prio(s, e) ==> e !in s.rt[Owner(s, e)].list[i]
  {
    var q := Owner(s, e);
    forall i | 0 <= i < MAX_RT_PRIO && i != Prio(s, e) ensures e !in s.rt[q].list[i] {
      assert PlacedAt(s, q, i, s.rt[q].list[i]);
    }
  }

  lemma RemovePlaced(s: State, e: Entity)
    requires Free(s, e) && e in s.onRq && EntityOk(s, e)
    ensures Touches(s, Remove(s, e), Owner(s, e), e)
    ensures Placed(Remove(s, e), Owner(s, e))
  {
    var q := Owner(s, e);
    var r := Remove(s, e);
    forall i | 0 <= i < MAX_RT_PRIO ensures PlacedAt(r, q, i, r.rt[q].list[i]) {
      var l := s.rt[q].list[i];
      assert PlacedAt(s, q, i, l);
      WithoutDistinct(l, e);
      forall x | x in Without(l, e) ensures Known(r, x) && Owner(r, x) == q && Prio(r, x) == i && x in r.onRq {
        Untouched(s, r, q, e, x);
      }
    }
  }

  /** In the queue `e` left or joined, the entities still weigh what they did. */
  lemma SameLoadsThere(s: State, r: State, q: nat, e: Entity, p: RtPrio)
    requires Touches(s, r, q, e) && Placed(r, q) && Group(q) !in s.onRq
    ensures SameLoads(s, r, r.rt[q].list[p])
  {
    var l := r.rt[q].list[p];
    assert PlacedAt(r, q, p, l);
    forall x, k | x in l ensures Load(s, x, k) == Load(r, x, k) {
      assert x.Group? ==> q < x.id;
    }
  }

  lemma UnlinkOne(ls: seq<seq<Entity>>, e: Entity, p: nat)
    requires p < |ls| && forall i :: 0 <= i < |ls| && i != p ==> e !in ls[i]
    ensures Unlink(ls, e) == ls[p := Without(ls[p], e)]
  {
  }

  lemma RemoveCounted(s: State, e: Entity, k: Stat)
    requires Free(s, e) && e in s.onRq && EntityOk(s, e)
    ensures Counter(Remove(s, e).rt[Owner(s, e)], k) == SumLists(Remove(s, e), Remove(s, e).rt[Owner(s, e)].list, k)
  {
    var q, p := Owner(s, e), Prio(s, e);
    var ls := s.rt[q].list;
    var r := Remove(s, e);
    RemovePlaced(s, e);
    OnlyThere(s, e);
    UnlinkOne(ls, e, p);
    forall i | 0 <= i < MAX_RT_PRIO ensures SameLoads(s, r, r.rt[q].list[i]) {
      SameLoadsThere(s, r, q, e, i);
    }
    SumListsFrame(s, r, r.rt[q].list, k);
    assert PlacedAt(s, q, p, ls[p]);
    SumWithout(s, ls[p], e, k);
    SumListsUpdate(s, ls, p, Without(ls[p], e), k);
    assert Counter(s.rt[q], k) == SumLists(s, ls, k);
  }

  lemma RemoveQueueOk(s: State, e: Entity)
    requires Free(s, e) && e in s.onRq && EntityOk(s, e)
    requires forall x :: x in s.onRq && x.Group? && Known(s, x) && Owner(s, x) == Owner(s, e) ==> s.rt[x.id].nr > 0
    ensures s.rt[Owner(s, e)].hi <= Prio(s, e)
    ensures QueueOk(Remove(s, e), Owner(s, e))
  {
    var q := Owner(s, e);
    var r := Remove(s, e);
    RemovePlaced(s, e);
    forall k ensures Counter(r.rt[q], k) == SumLists(r, r.rt[q].list, k) {
      RemoveCounted(s, e, k);
    }
    OnlyThere(s, e);
    ListsWeigh(r, q);
    SumListsPositive(r, r.rt[q].list);
    assert Counter(r.rt[q], Running) == SumLists(r, r.rt[q].list, Running);
    DelistCached(s.rt[q], e, Prio(s, e), Load(s, e, Running), Load(s, e, RoundRobin), Load(s, e, Boosted));
  }

  lemma RemoveEntityOk(s: State, e: Entity, x: Entity)
    requires Free(s, e) && e in s.onRq && EntityOk(s, e)
    requires x in s.onRq && x != e && EntityOk(s, x) && Owner(s, x) == Owner(s, e)
    ensures EntityOk(Remove(s, e), x)
  {
    RemovePlaced(s, e);
    Untouched(s, Remove(s, e), Owner(s, e), e, x);
  }

  lemma RemoveKeeps(s: State, e: Entity)
    requires Consistent(s) && e in s.onRq && Group(Owner(s, e)) !in s.onRq
    ensures Known(s, e) && 0 <= Prio(s, e) < MAX_RT_PRIO
    ensures s.rt[Owner(s, e)].hi <= Prio(s, e)
    ensures Consistent(Remove(s, e))
  {
    var q := Owner(s, e);
    var r := Remove(s, e);
    assert EntityOk(s, e) && QueueOk(s, q);
    RemovePlaced(s, e);
    forall x | x in s.onRq && x.Group? && Known(s, x) && Owner(s, x) == q ensures s.rt[x.id].nr > 0 {
      assert EntityOk(s, x);
    }
    RemoveQueueOk(s, e);
    forall x | x in r.onRq && Known(s, x) && Owner(s, x) == q ensures EntityOk(r, x) {
      RemoveEntityOk(s, e, x);
    }
    TouchesKeeps(s, r, q, e);
  }

  lemma InsertPlaced(s: State, e: Entity, head: bool)
    requires Free(s, e) && e !in s.onRq && Admits(s, e) && 0 <= Prio(s, e) < MAX_RT_PRIO
    ensures Touches(s, Insert(s, e, head), Owner(s, e), e)
    ensures Placed(Insert(s, e, head), Owner(s, e))
  {
    var q := Owner(s, e);
    var r := Insert(s, e, head);
    forall i | 0 <= i < MAX_RT_PRIO ensures PlacedAt(r, q, i, r.rt[q].list[i]) {
      InsertPlacedAt(s, r, e, head, i);
    }
  }

  lemma InsertPlacedAt(s: State, r: State, e: Entity, head: bool, i: RtPrio)
    requires Free(s, e) && e !in s.onRq && Admits(s, e) && 0 <= Prio(s, e) < MAX_RT_PRIO
    requires r == Insert(s, e, head) && Touches(s, r, Owner(s, e), e)
    ensures PlacedAt(r, Owner(s, e), i, r.rt[Owner(s, e)].list[i])
  {
    var q := Owner(s, e);
    var l := s.rt[q].list[i];
    assert PlacedAt(s, q, i, l) && e !in l;
    forall x | x in l || (x == e && i == Prio(s, e))
      ensures Known(r, x) && Owner(r, x) == q && Prio(r, x) == i && x in r.onRq
    {
      Untouched(s, r, q, e, x);
    }
  }

  lemma InsertCounted(s: State, e: Entity, head: bool, k: Stat)
    requires Free(s, e) && e !in s.onRq && Admits(s, e) && 0 <= Prio(s, e) < MAX_RT_PRIO
    ensures var r := Insert(s, e, head);
            Counter(r.rt[Owner(s, e)], k) == SumLists(r, r.rt[Owner(s, e)].list, k)
  {
    var q, p := Owner(s, e), Prio(s, e);
    var ls := s.rt[q].list;
    var r := Insert(s, e, head);
    var l := r.rt[q].list[p];
    InsertPlaced(s, e, head);
    forall i | 0 <= i < MAX_RT_PRIO ensures SameLoads(s, r, r.rt[q].list[i]) {
      SameLoadsThere(s, r, q, e, i);
    }
    SumListsFrame(s, r, r.rt[q].list, k);
    SumAppend(s, ls[p], e, k);
    assert head ==> l[1..] == ls[p];
    SumListsUpdate(s, ls, p, l, k);
    assert Counter(s.rt[q], k) == SumLists(s, ls, k);
  }

  lemma InsertQueueOk(s: State, e: Entity, head: bool)
    requires Free(s, e) && e !in s.onRq && Admits(s, e) && 0 <= Prio(s, e) < MAX_RT_PRIO
    ensures QueueOk(Insert(s, e, head), Owner(s, e))
  {
    var q := Owner(s, e);
    var r := Insert(s, e, head);
    InsertPlaced(s, e, head);
    forall k ensures Counter(r.rt[q], k) == SumLists(r, r.rt[q].list, k) {
      InsertCounted(s, e, head, k);
    }
    EnlistCached(s.rt[q], e, Prio(s, e), Load(s, e, Running), Load(s, e, RoundRobin), Load(s, e, Boosted), head);
  }

  lemma InsertEntityOk(s: State, e: Entity, head: bool, x: Entity)
    requires Free(s, e) && e !in s.onRq && Admits(s, e) && 0 <= Prio(s, e) < MAX_RT_PRIO
    requires e.Group? ==> s.rt[e.id].nr >= 0
    requires x == e || (x in s.onRq && EntityOk(s, x) && Owner(s, x) == Owner(s, e))
    ensures EntityOk(Insert(s, e, head), x)
  {
    InsertPlaced(s, e, head);
    Untouched(s, Insert(s, e, head), Owner(s, e), e, x);
  }

  lemma InsertAdmitted(s: State, e: Entity, head: bool)
    requires Consistent(s) && Known(s, e) && e !in s.onRq && Group(Owner(s, e)) !in s.onRq
    requires Admits(s, e) && 0 <= Prio(s, e) < MAX_RT_PRIO
    requires e.Group? ==> s.rt[e.id].nr >= 0
    ensures Consistent(Insert(s, e, head))
  {
    hide QueueOk;
    var q := Owner(s, e);
    var r := Insert(s, e, head);
    assert QueueOk(s, q);
    InsertPlaced(s, e, head);
    InsertQueueOk(s, e, head);
    forall x | x in r.onRq && Known(s, x) && Owner(s, x) == q ensures EntityOk(r, x) {
      InsertEntityOk(s, e, head, x);
    }
    TouchesKeeps(s, r, q, e);
  }

  lemma InsertKeeps(s: State, e: Entity, head: bool)
    requires Consistent(s) && Known(s, e) && e !in s.onRq && Group(Owner(s, e)) !in s.onRq
    ensures Admits(s, e) ==> 0 <= Prio(s, e) < MAX_RT_PRIO
    ensures Consistent(Insert(s, e, head))
  {
    if e.Group? {
      NonEmpty(s, e.id);
    }
    if Admits(s, e) {
      InsertAdmitted(s, e, head);
    }
  }

  // ----- Whole chains

  /** `r` differs from `s` at most in the root's queue, in the queues of the groups in `a`, and in
      whether the entities of `c` are queued; no throttle flag moves. */
  ghost predicate Frame(s: State, r: State, a: set<Entity>, c: set<Entity>) {
    && r == s.(rt := r.rt, onRq := r.onRq, onList := r.onList)
    && r.rt.Keys == s.rt.Keys
    && (forall x :: x !in c ==> (x in r.onRq <==> x in s.onRq))
    && (forall q :: q in s.rt ==> r.rt[q].throttled == s.rt[q].throttled)
    && (forall q :: q in s.rt && q != ROOT && Group(q) !in a ==> r.rt[q] == s.rt[q])
  }

  lemma FrameWiden(s: State, r: State, a: set<Entity>, c: set<Entity>, a': set<Entity>, c': set<Entity>)
    requires r == s || Frame(s, r, a, c)
    requires a <= a' && c <= c'
    ensures Frame(s, r, a', c')
  {
  }

  lemma FrameKnown(s: State, r: State, a: set<Entity>, c: set<Entity>, e: Entity)
    requires WellFormed(s) && WellFormed(r) && Frame(s, r, a, c) && Known(s, e)
    ensures r.tree == s.tree && Known(r, e) && Owner(r, e) == Owner(s, e)
  {
  }

  lemma RootIsOff(s: State)
    requires Consistent(s)
    ensures Group(ROOT) !in s.onRq
  {
    assert forall e :: e in s.onRq ==> Known(s, e);
  }

  lemma FrameTrans(s: State, r: State, t: State, a: set<Entity>, c: set<Entity>, c': set<Entity>)
    requires Frame(s, r, a, c) && Frame(r, t, a, c') && c <= c'
    ensures Frame(s, t, a, c')
  {
  }

  lemma RemoveFrame(s: State, e: Entity, a: set<Entity>)
    requires WellFormed(s) && Known(s, e) && 0 <= Prio(s, e) < MAX_RT_PRIO
    requires Owner(s, e) == ROOT || Group(Owner(s, e)) in a
    ensures Frame(s, Remove(s, e), a, a + {e})
    ensures Remove(s, e).onRq == s.onRq - {e}
  {
  }

  lemma InsertFrame(s: State, e: Entity, head: bool, a: set<Entity>)
    requires WellFormed(s) && Known(s, e)
    requires Admits(s, e) ==> 0 <= Prio(s, e) < MAX_RT_PRIO
    requires Owner(s, e) == ROOT || Group(Owner(s, e)) in a
    ensures Frame(s, Insert(s, e, head), a, a + {e})
    ensures Insert(s, e, head).onRq == if Admits(s, e) then s.onRq + {e} else s.onRq
  {
  }

  lemma RemoveSetup(s: State, m: State, e: Entity, a: set<Entity>, c: set<Entity>)
    requires Consistent(s) && Consistent(m) && Known(s, e) && a <= c
    requires if Owner(s, e) == ROOT then m == s && c == {} else Frame(s, m, a, c) && Off(m, c)
    ensures Frame(s, m, c, c) && Off(m, c) && Known(m, e) && Owner(m, e) == Owner(s, e)
    ensures e !in m.onRq ==> Frame(s, m, c, c + {e}) && Off(m, c + {e})
  {
    hide QueueOk; hide EntityOk;
    FrameWiden(s, m, a, c, c, c);
    FrameWiden(s, m, a, c, c, c + {e});
  }

  /** One turn of the top-down loop, once the groups `a` above `e` are off their queues. */
  lemma RemoveStep(s: State, m: State, e: Entity, a: set<Entity>)
    requires Consistent(m) && Frame(s, m, a, a) && Off(m, a) && e in m.onRq
    requires Known(m, e) && (Owner(m, e) == ROOT || Group(Owner(m, e)) in a)
    ensures 0 <= Prio(m, e) < MAX_RT_PRIO
    ensures Consistent(Remove(m, e)) && Frame(s, Remove(m, e), a, a + {e})
    ensures Off(Remove(m, e), a + {e})
  {
    hide QueueOk;
    assert EntityOk(m, e);
    RemoveKeeps(m, e);
    RemoveFrame(m, e, a);
    FrameTrans(s, m, Remove(m, e), a, a, a + {e});
  }

  /** The chain of `e` is off its queues and nothing else has changed. */
  ghost predicate Unlinked(s: State, r: State, e: Entity)
    requires WellFormed(s) && Known(s, e)
  {
    Consistent(r) && Frame(s, r, Above(s.tree, Owner(s, e)), Chain(s, e)) && Off(r, Chain(s, e))
  }

  /** The second loop of `dequeue_rt_stack`: the chain of `e` leaves its queues top-down. */
  ghost function RemoveDown(s: State, e: Entity): (r: State)
    requires Consistent(s) && Known(s, e)
    ensures Unlinked(s, r, e)
    decreases Owner(s, e)
  {
    hide QueueOk; hide EntityOk; hide Remove; hide Frame; hide Off;
    var q := Owner(s, e);
    var a := Above(s.tree, q);
    var m := if q == ROOT then s else RemoveDown(s, Group(q));
    RemoveSetup(s, m, e, if q == ROOT then {} else Above(s.tree, s.tree.parent[q]), a);
    if e in m.onRq then RemoveStep(s, m, e, a); Remove(m, e) else m
  }

  /** One turn of a bottom-up loop; afterwards nothing on the way up to the root is queued yet. */
  lemma InsertStep(s: State, e: Entity, head: bool, a: set<Entity>)
    requires Consistent(s) && Known(s, e) && Off(s, a + {e}) && e !in a
    requires Owner(s, e) == ROOT || Group(Owner(s, e)) in a
    ensures Admits(s, e) ==> 0 <= Prio(s, e) < MAX_RT_PRIO
    ensures var r := Insert(s, e, head);
            && Consistent(r) && Frame(s, r, a, a + {e}) && Off(r, a)
            && (e in r.onRq <==> Admits(s, e))
            && (e.Group? ==> (e in r.onRq <==> Runnable(r.rt[e.id])))
  {
    hide QueueOk; hide EntityOk;
    RootIsOff(s);
    if e.Group? {
      NonEmpty(s, e.id);
    }
    InsertKeeps(s, e, head);
    InsertFrame(s, e, head, a);
  }

  /** One turn of either bottom-up loop; `dequeue_rt_entity` passes over tasks and empty groups. */
  ghost function Link(s: State, e: Entity, head: bool, guarded: bool): State
    requires WellFormed(s) && Known(s, e)
    requires Admits(s, e) ==> 0 <= Prio(s, e) < MAX_RT_PRIO
  {
    if guarded && (e.Task? || s.rt[e.id].nr == 0) then s else Insert(s, e, head)
  }

  lemma LinkStep(s: State, e: Entity, head: bool, guarded: bool, a: set<Entity>)
    requires Consistent(s) && Known(s, e) && Off(s, a + {e}) && e !in a
    requires Owner(s, e) == ROOT || Group(Owner(s, e)) in a
    ensures Admits(s, e) ==> 0 <= Prio(s, e) < MAX_RT_PRIO
    ensures var r := Link(s, e, head, guarded);
            && Consistent(r) && Frame(s, r, a, a + {e}) && Off(r, a)
            && (e.Task? ==> (e in r.onRq <==> !guarded))
            && CompleteOn(r, {e}) && CompleteOn(r, {} + {e})
  {
    hide QueueOk; hide EntityOk; hide Insert; hide Frame;
    FrameWiden(s, s, a, a, a, a + {e});
    InsertStep(s, e, head, a);
  }

  /** The chain of `e` is back, as far as it has something to run; a task only if not `guarded`. */
  ghost predicate Linked(s: State, r: State, e: Entity, guarded: bool)
    requires WellFormed(s) && Known(s, e)
  {
    && Consistent(r) && Frame(s, r, Above(s.tree, Owner(s, e)), Chain(s, e))
    && (e.Task? ==> (e in r.onRq <==> !guarded))
    && CompleteOn(r, Chain(s, e))
  }

  lemma CompleteStep(s: State, m: State, r: State, e: Entity, a': set<Entity>, a: set<Entity>)
    requires a' <= a && e !in a && (e.Group? ==> e.id != ROOT)
    requires Frame(s, m, a, a + {e}) && CompleteOn(m, {e})
    requires Frame(m, r, a', a) && CompleteOn(r, a)
    ensures Frame(s, r, a, a + {e}) && CompleteOn(r, a + {e})
    ensures e in r.onRq <==> e in m.onRq
  {
    hide Runnable;
    FrameWiden(m, r, a', a, a, a + {e});
    FrameTrans(s, m, r, a, a + {e}, a + {e});
  }

  lemma LinkUpStep(s: State, m: State, r: State, e: Entity, guarded: bool)
    requires WellFormed(s) && Known(s, e) && Owner(s, e) != ROOT && WellFormed(m) && m.tree == s.tree
    requires Frame(s, m, Above(s.tree, Owner(s, e)), Chain(s, e)) && CompleteOn(m, {e})
    requires e.Task? ==> (e in m.onRq <==> !guarded)
    requires Known(m, Group(Owner(s, e))) && Linked(m, r, Group(Owner(s, e)), guarded)
    ensures Linked(s, r, e, guarded)
  {
    hide Consistent; hide Runnable; hide Frame; hide CompleteOn;
    CompleteStep(s, m, r, e, Above(s.tree, s.tree.parent[Owner(s, e)]), Above(s.tree, Owner(s, e)));
  }

  /** The loops of `enqueue_rt_entity` and, when `guarded`, of `dequeue_rt_entity`: the chain of `e`
      enters its queues bottom-up. */
  ghost function LinkUp(s: State, e: Entity, head: bool, guarded: bool): (r: State)
    requires Consistent(s) && Known(s, e) && Off(s, Chain(s, e))
    ensures Linked(s, r, e, guarded)
    decreases Owner(s, e)
  {
    hide QueueOk; hide EntityOk; hide Link; hide Frame; hide Off; hide CompleteOn;
    var q := Owner(s, e);
    var a := Above(s.tree, q);
    LinkStep(s, e, head, guarded, a);
    var m := Link(s, e, head, guarded);
    if q == ROOT then m else
      FrameKnown(s, m, a, a + {e}, Group(q));
      var r := LinkUp(m, Group(q), head, guarded);
      LinkUpStep(s, m, r, e, guarded);
      r
  }

  // ----- The routines

  /** `dequeue_top_rt_rq`. */
  ghost function DequeueTop(rq: Rq): Rq
    requires ROOT in rq.s.rt
  {
    if rq.rtQueued then rq.(nrRunning := rq.nrRunning - rq.s.rt[ROOT].nr, rtQueued := false) else rq
  }

  /** `enqueue_top_rt_rq`. */
  ghost function EnqueueTop(rq: Rq): Rq
    requires ROOT in rq.s.rt
  {
    if !rq.rtQueued && !Throttled(rq.s.rt[ROOT]) && rq.s.rt[ROOT].nr != 0
    then rq.(nrRunning := rq.nrRunning + rq.s.rt[ROOT].nr, rtQueued := true) else rq
  }

  lemma UnlinkedKnown(s: State, r: State, e: Entity)
    requires WellFormed(s) && Known(s, e) && Unlinked(s, r, e)
    ensures Consistent(r) && ROOT in r.rt && Known(r, e) && Off(r, Chain(r, e))
    ensures Chain(r, e) == Chain(s, e) && Owner(r, e) == Owner(s, e) && r.tree == s.tree
  {
    hide QueueOk; hide EntityOk;
  }

  /** `enqueue_rt_entity`, or `dequeue_rt_entity` when `guarded`. */
  ghost function Requeue(rq: Rq, e: Entity, head: bool, guarded: bool): Rq
    requires Consistent(rq.s) && Known(rq.s, e)
  {
    hide QueueOk; hide EntityOk; hide Frame; hide Off;
    var m := RemoveDown(rq.s, e);
    UnlinkedKnown(rq.s, m, e);
    EnqueueTop(DequeueTop(rq).(s := LinkUp(m, e, head, guarded)))
  }

  /** Groups off the chain are as before, groups on it are complete: all groups are. */
  lemma CompleteAgain(s: State, m: State, r: State, a: set<Entity>, c: set<Entity>)
    requires a <= c && Frame(s, m, a, c) && Frame(m, r, a, c)
    requires CompleteOff(s, c) && CompleteOn(r, c)
    ensures CompleteOff(r, {}) && Frame(s, r, a, c)
  {
    hide Runnable;
    FrameTrans(s, m, r, a, c, c);
  }

  /** What one pass over the chain of `e` does to the rest of the run queue. */
  ghost predicate Requeued(rq: Rq, r: Rq, e: Entity)
    requires ROOT in rq.s.rt && ROOT in r.s.rt
  {
    && r.nrRunning - Share(r) == rq.nrRunning - Share(rq)
    && r.s.tree == rq.s.tree && r.s.task == rq.s.task && r.s.rt.Keys == rq.s.rt.Keys
    && (forall t :: Task(t) != e ==> (Task(t) in r.s.onRq <==> Task(t) in rq.s.onRq))
    && (forall q :: q in rq.s.rt ==> r.s.rt[q].throttled == rq.s.rt[q].throttled)
  }

  lemma FrameRequeued(rq: Rq, r: Rq, e: Entity, a: set<Entity>)
    requires ROOT in rq.s.rt && Frame(rq.s, r.s, a, a + {e}) && forall x :: x in a ==> x.Group?
    requires r.nrRunning - Share(r) == rq.nrRunning - Share(rq)
    ensures Requeued(rq, r, e)
  {
  }

  /** From a state whose only flaws are on the chain of `e`, requeueing the chain leaves none. */
  lemma RequeueKeeps(rq: Rq, e: Entity, head: bool, guarded: bool)
    requires Consistent(rq.s) && Known(rq.s, e) && CompleteOff(rq.s, Chain(rq.s, e))
    ensures Valid(Requeue(rq, e, head, guarded)) && Requeued(rq, Requeue(rq, e, head, guarded), e)
    ensures e.Task? ==> (e in Requeue(rq, e, head, guarded).s.onRq <==> !guarded)
  {
    hide QueueOk; hide EntityOk; hide Off; hide CompleteOff; hide CompleteOn; hide Frame; hide Requeued;
    var s := rq.s;
    var m := RemoveDown(s, e);
    UnlinkedKnown(s, m, e);
    var l := LinkUp(m, e, head, guarded);
    CompleteAgain(s, m, l, Above(s.tree, Owner(s, e)), Chain(s, e));
    NonEmpty(l, ROOT);
    FrameRequeued(rq, Requeue(rq, e, head, guarded), e, Above(s.tree, Owner(s, e)));
  }

  lemma Widen(s: State, e: Entity)
    requires WellFormed(s) && Known(s, e) && CompleteOff(s, {})
    ensures CompleteOff(s, Chain(s, e))
  {
    hide Runnable;
  }

  // ----- Throttling and refilling a group

  ghost function SetThrottled(rq: Rq, q: nat, b: bool): Rq
    requires q in rq.s.rt
  {
    rq.(s := rq.s.(rt := rq.s.rt[q := rq.s.rt[q].(throttled := b)]))
  }

  /** `sched_rt_rq_dequeue`. */
  ghost function RqDequeue(rq: Rq, q: nat): Rq
    requires Consistent(rq.s) && q in rq.s.rt
  {
    if q == ROOT then DequeueTop(rq)
    else if Group(q) in rq.s.onRq then Requeue(rq, Group(q), false, true) else rq
  }

  /** `sched_rt_rq_enqueue`. */
  ghost function RqEnqueue(rq: Rq, q: nat): Rq
    requires Consistent(rq.s) && q in rq.s.rt
  {
    if rq.s.rt[q].nr == 0 then rq
    else if q == ROOT then EnqueueTop(rq)
    else if Group(q) in rq.s.onRq then rq else Requeue(rq, Group(q), false, false)
  }

  /** The end of `sched_rt_runtime_exceeded`, when queue `q` has overrun its runtime. */
  ghost function Throttle(rq: Rq, q: nat): Rq
    requires Consistent(rq.s) && q in rq.s.rt
  {
    FlagKeeps(rq, q, true);
    var r := SetThrottled(rq, q, true);
    if Throttled(r.s.rt[q]) then RqDequeue(r, q) else r
  }

  /** The throttle is lifted, by the period timer or by `__disable_runtime`. */
  ghost function Unthrottle(rq: Rq, q: nat): Rq
    requires Consistent(rq.s) && q in rq.s.rt
  {
    FlagKeeps(rq, q, false);
    RqEnqueue(SetThrottled(rq, q, false), q)
  }

  lemma FlagQueue(s: State, r: State, q: nat, b: bool, q': nat)
    requires WellFormed(s) && WellFormed(r) && q in s.rt && q' in s.rt && QueueOk(s, q')
    requires r == s.(rt := s.rt[q := s.rt[q].(throttled := b)])
    ensures QueueOk(r, q')
  {
    var ls := s.rt[q'].list;
    forall p | 0 <= p < MAX_RT_PRIO ensures PlacedAt(r, q', p, ls[p]) && SameLoads(s, r, ls[p]) {
      assert PlacedAt(s, q', p, ls[p]);
    }
    forall k ensures Counter(r.rt[q'], k) == SumLists(r, ls, k) {
      SumListsFrame(s, r, ls, k);
      assert Counter(s.rt[q'], k) == SumLists(s, ls, k);
    }
  }

  lemma FlagEntity(s: State, r: State, q: nat, b: bool, e: Entity)
    requires WellFormed(s) && q in s.rt && EntityOk(s, e)
    requires r == s.(rt := s.rt[q := s.rt[q].(throttled := b)])
    ensures WellFormed(r) && EntityOk(r, e)
  {
  }

  lemma FlagKeeps(rq: Rq, q: nat, b: bool)
    requires Consistent(rq.s) && q in rq.s.rt
    ensures Consistent(SetThrottled(rq, q, b).s)
  {
    hide QueueOk; hide EntityOk;
    var s, r := rq.s, SetThrottled(rq, q, b).s;
    assert WellFormed(r);
    forall q' | q' in r.rt ensures QueueOk(r, q') {
      FlagQueue(s, r, q, b, q');
    }
    forall e | e in r.onRq ensures EntityOk(r, e) {
      FlagEntity(s, r, q, b, e);
    }
  }

  /** `q` and the rest of the run queue after its throttle flag was set to `b`. */
  ghost predicate Reflagged(rq: Rq, r: Rq, q: nat, b: bool)
    requires ROOT in rq.s.rt && ROOT in r.s.rt && q in rq.s.rt
  {
    && r.nrRunning - Share(r) == rq.nrRunning - Share(rq)
    && r.s.tree == rq.s.tree && r.s.task == rq.s.task && r.s.rt.Keys == rq.s.rt.Keys
    && (forall t :: Task(t) in r.s.onRq <==> Task(t) in rq.s.onRq)
    && (forall q' :: q' in rq.s.rt ==> r.s.rt[q'].throttled == if q' == q then b else rq.s.rt[q'].throttled)
  }

  lemma FlagComplete(rq: Rq, q: nat, b: bool, c: set<Entity>)
    requires CompleteOff(rq.s, {}) && q in rq.s.rt && Group(q) in c
    ensures CompleteOff(SetThrottled(rq, q, b).s, c)
  {
    hide Runnable;
  }

  lemma FlagRequeue(rq: Rq, q: nat, b: bool, guarded: bool)
    requires Valid(rq) && q in rq.s.rt && q != ROOT
    requires Consistent(SetThrottled(rq, q, b).s)
    ensures var r := Requeue(SetThrottled(rq, q, b), Group(q), false, guarded);
            Valid(r) && Reflagged(rq, r, q, b)
  {
    hide QueueOk; hide EntityOk; hide Requeue; hide Runnable; hide CompleteOff;
    var r := SetThrottled(rq, q, b);
    FlagComplete(rq, q, b, Chain(r.s, Group(q)));
    RequeueKeeps(r, Group(q), false, guarded);
  }

  /** The entity of `q` is already where the new flag wants it. */
  lemma FlagStays(rq: Rq, q: nat, b: bool)
    requires Valid(rq) && q in rq.s.rt && Consistent(SetThrottled(rq, q, b).s)
    requires Runnable(rq.s.rt[q]) <==> Runnable(SetThrottled(rq, q, b).s.rt[q])
    ensures Valid(SetThrottled(rq, q, b)) && Reflagged(rq, SetThrottled(rq, q, b), q, b)
  {
    hide QueueOk; hide EntityOk;
  }

  lemma FlagRoot(rq: Rq, b: bool)
    requires Valid(rq) && Consistent(SetThrottled(rq, ROOT, b).s)
    ensures var r := SetThrottled(rq, ROOT, b);
            && (Throttled(r.s.rt[ROOT]) ==> Valid(DequeueTop(r)) && Reflagged(rq, DequeueTop(r), ROOT, b))
            && (!b ==> Valid(EnqueueTop(r)) && Reflagged(rq, EnqueueTop(r), ROOT, b))
  {
    hide QueueOk; hide EntityOk; hide CompleteOff;
    NonEmpty(rq.s, ROOT);
    FlagComplete(rq, ROOT, b, {Group(ROOT)});
    RootAside(SetThrottled(rq, ROOT, b).s);
  }

  lemma RootAside(s: State)
    requires CompleteOff(s, {Group(ROOT)})
    ensures CompleteOff(s, {})
  {
    hide Runnable;
  }

  /** Throttling a queue takes it, and whatever that empties, off the queues above. */
  lemma ThrottleKeeps(rq: Rq, q: nat)
    requires Valid(rq) && q in rq.s.rt
    ensures Valid(Throttle(rq, q)) && Reflagged(rq, Throttle(rq, q), q, true)
  {
    hide QueueOk; hide EntityOk; hide Requeue; hide DequeueTop; hide Reflagged;
    FlagKeeps(rq, q, true);
    if q == ROOT {
      FlagRoot(rq, true);
    } else {
      FlagRequeue(rq, q, true, true);
    }
    if Group(q) !in rq.s.onRq || !Throttled(SetThrottled(rq, q, true).s.rt[q]) {
      FlagOff(rq, q);
    }
  }

  lemma FlagOff(rq: Rq, q: nat)
    requires Valid(rq) && q in rq.s.rt && Consistent(SetThrottled(rq, q, true).s)
    ensures !Throttled(SetThrottled(rq, q, true).s.rt[q]) || (q != ROOT && Group(q) !in rq.s.onRq)
            ==> Valid(SetThrottled(rq, q, true)) && Reflagged(rq, SetThrottled(rq, q, true), q, true)
  {
    hide QueueOk; hide EntityOk; hide Reflagged;
    if !Throttled(SetThrottled(rq, q, true).s.rt[q]) || (q != ROOT && Group(q) !in rq.s.onRq) {
      FlagStays(rq, q, true);
    }
  }

  /** Lifting a throttle puts the queue, and the groups it makes runnable, back. */
  lemma UnthrottleKeeps(rq: Rq, q: nat)
    requires Valid(rq) && q in rq.s.rt
    ensures Valid(Unthrottle(rq, q)) && Reflagged(rq, Unthrottle(rq, q), q, false)
  {
    hide QueueOk; hide EntityOk; hide Requeue; hide EnqueueTop; hide Reflagged;
    FlagKeeps(rq, q, false);
    NonEmpty(rq.s, q);
    if rq.s.rt[q].nr == 0 {
      FlagStays(rq, q, false);
    } else if q == ROOT {
      FlagRoot(rq, false);
    } else if Group(q) in rq.s.onRq {
      FlagStays(rq, q, false);
    } else {
      FlagRequeue(rq, q, false, false);
    }
  }

  // ----- Runs

  datatype Op =
    | Enqueue(t: nat, head: bool)        // enqueue_task_rt
    | Dequeue(t: nat)                    // dequeue_task_rt
    | Overrun(q: nat)                    // sched_rt_runtime_exceeded finds queue q over its runtime
    | Refill(q: nat)                     // do_sched_rt_period_timer or __disable_runtime lifts the throttle
    | Change(t: nat, attr: TaskAttr)     // priority, policy or group of a dequeued task
    | OtherClass(delta: int)             // another class changes rq->nr_running

  ghost predicate Enabled(rq: Rq, op: Op)
    requires ROOT in rq.s.rt
  {
    match op
    case Enqueue(t, _) => t in rq.s.task
    case Dequeue(t) => t in rq.s.task
    case Overrun(q) => q in rq.s.rt
    case Refill(q) => q in rq.s.rt
    case Change(t, attr) => attr.home in rq.s.rt && Task(t) !in rq.s.onRq
    case OtherClass(delta) => rq.nrRunning - Share(rq) + delta >= 0
  }

  ghost function Step(rq: Rq, op: Op): Rq
    requires Valid(rq) && Enabled(rq, op)
  {
    match op
    case Enqueue(t, head) => Requeue(rq, Task(t), head, false)
    case Dequeue(t) => Requeue(rq, Task(t), false, true)
    case Overrun(q) => Throttle(rq, q)
    case Refill(q) => Unthrottle(rq, q)
    case Change(t, attr) => rq.(s := rq.s.(task := rq.s.task[t := attr]))
    case OtherClass(delta) => rq.(nrRunning := rq.nrRunning + delta)
  }

  lemma ChangeQueue(s: State, r: State, t: nat, attr: TaskAttr, q: nat)
    requires WellFormed(s) && WellFormed(r) && q in s.rt && QueueOk(s, q) && Task(t) !in s.onRq
    requires r == s.(task := s.task[t := attr])
    ensures QueueOk(r, q)
  {
    forall x | x in s.onRq && Known(s, x) && Owner(s, x) == q ensures x in r.onRq && SameEntity(s, r, x) {
    }
    QueueFrame(s, r, q);
  }

  lemma ChangeEntity(s: State, r: State, t: nat, attr: TaskAttr, e: Entity)
    requires WellFormed(s) && WellFormed(r) && EntityOk(s, e) && e != Task(t)
    requires r == s.(task := s.task[t := attr])
    ensures EntityOk(r, e)
  {
  }

  lemma ChangeKeeps(rq: Rq, t: nat, attr: TaskAttr)
    requires Valid(rq) && attr.home in rq.s.rt && Task(t) !in rq.s.onRq
    ensures Valid(rq.(s := rq.s.(task := rq.s.task[t := attr])))
  {
    hide QueueOk; hide EntityOk; hide Runnable;
    var s, r := rq.s, rq.s.(task := rq.s.task[t := attr]);
    assert WellFormed(r);
    forall q | q in r.rt ensures QueueOk(r, q) {
      ChangeQueue(s, r, t, attr, q);
    }
    forall e | e in r.onRq ensures EntityOk(r, e) {
      ChangeEntity(s, r, t, attr, e);
    }
  }

  ghost predicate Sound(rq: Rq) {
    Valid(rq) && rq.nrRunning >= Share(rq)
  }

  /** Every routine keeps the tree of queues valid and leaves the other classes' share alone. */
  lemma StepKeeps(rq: Rq, op: Op)
    requires Sound(rq) && Enabled(rq, op)
    ensures Sound(Step(rq, op))
    ensures Step(rq, op).nrRunning - Share(Step(rq, op))
            == rq.nrRunning - Share(rq) + if op.OtherClass? then op.delta else 0
  {
    hide QueueOk; hide EntityOk; hide Requeue; hide Throttle; hide Unthrottle; hide Runnable;
    match op
    case Enqueue(t, head) => RequeueKeeps(rq, Task(t), head, false);
    case Dequeue(t) => RequeueKeeps(rq, Task(t), false, true);
    case Overrun(q) => ThrottleKeeps(rq, q);
    case Refill(q) => UnthrottleKeeps(rq, q);
    case Change(t, attr) => ChangeKeeps(rq, t, attr);
    case OtherClass(_) =>
  }

  /** What each operation is for: the task is queued, or off; the flag is set, or clear; and no other task,
      flag or attribute changes. */
  ghost predicate Does(rq: Rq, op: Op, r: Rq)
    requires ROOT in rq.s.rt && ROOT in r.s.rt && Enabled(rq, op)
  {
    match op
    case Enqueue(t, _) => Requeued(rq, r, Task(t)) && Task(t) in r.s.onRq
    case Dequeue(t) => Requeued(rq, r, Task(t)) && Task(t) !in r.s.onRq
    case Overrun(q) => Reflagged(rq, r, q, true)
    case Refill(q) => Reflagged(rq, r, q, false)
    case Change(t, attr) =>
      r.s.task == rq.s.task[t := attr] && r.s.rt == rq.s.rt && r.s.onRq == rq.s.onRq && r.nrRunning == rq.nrRunning
    case OtherClass(delta) => r.s == rq.s && r.nrRunning == rq.nrRunning + delta
  }

  lemma StepDoes(rq: Rq, op: Op)
    requires Valid(rq) && Enabled(rq, op)
    ensures ROOT in Step(rq, op).s.rt && Does(rq, op, Step(rq, op))
  {
    hide QueueOk; hide EntityOk; hide Requeue; hide Throttle; hide Unthrottle; hide CompleteOff; hide Requeued;
    hide Reflagged;
    match op
    case Enqueue(t, head) =>
      Widen(rq.s, Task(t));
      RequeueKeeps(rq, Task(t), head, false);
    case Dequeue(t) =>
      Widen(rq.s, Task(t));
      RequeueKeeps(rq, Task(t), false, true);
    case Overrun(q) => ThrottleKeeps(rq, q);
    case Refill(q) => UnthrottleKeeps(rq, q);
    case Change(_, _) =>
    case OtherClass(_) =>
  }

  /** `init_rt_rq` for every queue of `tree`. */
  function EmptyQueue(): RtRq {
    RtRq(seq(MAX_RT_PRIO, _ => []), seq(MAX_RT_PRIO + 1, i => i == MAX_RT_PRIO), 0, 0, 0, MAX_RT_PRIO, false)
  }

  ghost function Init(tree: Tree, task: map<nat, TaskAttr>, others: nat): Rq {
    Rq(State(tree, task, map g | g in tree.groups :: EmptyQueue(), {}, {}), false, others)
  }

  lemma {:induction false} SumOfEmpty(s: State, ls: seq<seq<Entity>>, k: Stat)
    requires forall i :: 0 <= i < |ls| ==> ls[i] == []
    ensures SumLists(s, ls, k) == 0
  {
    if ls != [] {
      SumOfEmpty(s, ls[1..], k);
    }
  }

  lemma InitSound(tree: Tree, task: map<nat, TaskAttr>, others: nat)
    requires tree.Valid() && forall t :: t in task ==> task[t].home in tree.groups
    ensures Sound(Init(tree, task, others))
  {
    var s := Init(tree, task, others).s;
    forall q | q in s.rt ensures QueueOk(s, q) {
      forall k ensures Counter(s.rt[q], k) == SumLists(s, s.rt[q].list, k) {
        SumOfEmpty(s, s.rt[q].list, k);
      }
    }
  }

  ghost predicate Follows(rq: Rq, op: Op, r: Rq) {
    Valid(rq) ==> Enabled(rq, op) && r == Step(rq, op)
  }

  /** `trace` is a run of enabled operations. */
  ghost predicate IsRun(trace: seq<Rq>, ops: seq<Op>) {
    && |trace| == |ops| + 1
    && forall i :: 0 <= i < |ops| ==> Follows(trace[i], ops[i], trace[i + 1])
  }

  /** What the other classes have added to `nr_running` and taken from it. */
  ghost function Deltas(ops: seq<Op>): int {
    if ops == [] then 0
    else Deltas(ops[..|ops| - 1]) + if ops[|ops| - 1].OtherClass? then ops[|ops| - 1].delta else 0
  }

  /** Over every run from boot, every queue of the tree agrees with its lists, every group is queued
      exactly when it can run, and `nr_running` is what the other classes put there and the real-time
      share. */
  lemma {:induction false} RunsAreSound(trace: seq<Rq>, ops: seq<Op>, tree: Tree, task: map<nat, TaskAttr>, others: nat)
    requires tree.Valid() && forall t :: t in task ==> task[t].home in tree.groups
    requires IsRun(trace, ops) && trace[0] == Init(tree, task, others)
    ensures forall i :: 0 <= i < |trace| ==> Sound(trace[i]) && Accounted(trace[i], others + Deltas(ops[..i]))
  {
    hide Step; hide Enabled; hide Init; hide Sound; hide Accounted; hide Valid;
    InitSound(tree, task, others);
    InitAccounted(tree, task, others);
    for n := 1 to |trace|
      invariant forall i :: 0 <= i < n ==> Sound(trace[i]) && Accounted(trace[i], others + Deltas(ops[..i]))
    {
      assert Follows(trace[n - 1], ops[n - 1], trace[n - 1 + 1]);
      SoundIsValid(trace[n - 1]);
      StepKeeps(trace[n - 1], ops[n - 1]);
      StepAccounts(trace[n - 1], ops[n - 1], others + Deltas(ops[..n - 1]));
      assert ops[..n][..n - 1] == ops[..n - 1];
    }
  }

  lemma SoundIsValid(rq: Rq)
    requires Sound(rq)
    ensures Valid(rq)
  {
  }

  lemma InitAccounted(tree: Tree, task: map<nat, TaskAttr>, others: nat)
    requires tree.Valid()
    ensures Accounted(Init(tree, task, others), others)
  {
  }

  lemma StepAccounts(rq: Rq, op: Op, others: int)
    requires Sound(rq) && Enabled(rq, op) && Accounted(rq, others)
    ensures Accounted(Step(rq, op), others + if op.OtherClass? then op.delta else 0)
  {
    hide Step; hide Consistent; hide CompleteOff; hide Runnable;
    StepKeeps(rq, op);
    assert Valid(Step(rq, op));
    assert ROOT in Step(rq, op).s.rt by { RootIn(Step(rq, op).s); }
  }

  lemma RootIn(s: State)
    requires Consistent(s)
    ensures ROOT in s.rt
  {
    hide QueueOk; hide EntityOk;
  }

  ghost predicate Accounted(rq: Rq, others: int) {
    ROOT in rq.s.rt && rq.nrRunning == others + Share(rq)
  }

  // ----- What the cached priorities mean for tasks

  /** `t` is queued and so is every group above it. */
  ghost predicate Eligible(s: State, t: nat)
    requires WellFormed(s)
  {
    t in s.task && Task(t) in s.onRq && Above(s.tree, s.task[t].home) <= s.onRq
  }

  lemma HighestInQueue(s: State, e: Entity)
    requires Consistent(s) && e in s.onRq
    ensures Known(s, e) && s.rt[Owner(s, e)].hi <= Prio(s, e)
  {
    hide SumLists;
    assert EntityOk(s, e) && QueueOk(s, Owner(s, e));
  }

  /** A bound on the best priority of a queue carries up a chain of queued groups. */
  lemma {:induction false} HighestUp(s: State, q: nat, v: int)
    requires Consistent(s) && q in s.rt && Above(s.tree, q) <= s.onRq && s.rt[q].hi <= v
    ensures s.rt[ROOT].hi <= v
    decreases q
  {
    hide QueueOk; hide EntityOk;
    if q != ROOT {
      HighestInQueue(s, Group(q));
      HighestUp(s, s.tree.parent[q], v);
    }
  }

  /** The root's `highest_prio.curr` is a lower bound for every eligible task anywhere in the tree. */
  lemma HighestOfAll(s: State, t: nat)
    requires Consistent(s) && Eligible(s, t)
    ensures s.rt[ROOT].hi <= s.task[t].prio
  {
    hide QueueOk; hide EntityOk;
    HighestInQueue(s, Task(t));
    HighestUp(s, s.task[t].home, s.task[t].prio);
  }

  /** The head of the best list of a non-empty queue: `pick_next_rt_entity`. */
  function FirstEntity(s: State, q: nat): Entity
    requires Consistent(s) && q in s.rt && s.rt[q].nr > 0
  {
    NonEmpty(s, q);
    s.rt[q].list[FirstBit(s.rt[q].bitmap, 0)][0]
  }

  lemma FirstEntityIs(s: State, q: nat)
    requires Consistent(s) && q in s.rt && s.rt[q].nr > 0
    ensures var e := FirstEntity(s, q);
            && e in s.onRq && Known(s, e) && Owner(s, e) == q && Prio(s, e) == s.rt[q].hi
            && 0 <= s.rt[q].hi < |s.rt[q].list| && s.rt[q].list[s.rt[q].hi] != [] && e == s.rt[q].list[s.rt[q].hi][0]
            && (e.Group? ==> e.id in s.rt && s.rt[e.id].nr > 0 && s.tree.parent[e.id] == q && q < e.id)
  {
    hide SumLists;
    NonEmpty(s, q);
    assert QueueOk(s, q);
    var p := s.rt[q].hi;
    assert PlacedAt(s, q, p, s.rt[q].list[p]);
    assert EntityOk(s, FirstEntity(s, q));
  }

  /** `e` stands first on the best list of its queue, and so does every group above it. */
  ghost predicate Foremost(s: State, e: Entity)
    requires WellFormed(s) && Known(s, e)
    decreases Owner(s, e)
  {
    var q := Owner(s, e);
    && FirstOf(s.rt[q].list, s.rt[q].hi, e) && Prio(s, e) == s.rt[q].hi
    && (q != ROOT ==> Foremost(s, Group(q)))
  }

  ghost predicate FirstOf(ls: seq<seq<Entity>>, p: int, e: Entity) {
    0 <= p < |ls| && ls[p] != [] && ls[p][0] == e
  }

  /** `y` is `x` or a group above it. */
  ghost predicate OnPath(s: State, x: Entity, y: Entity)
    requires WellFormed(s) && Known(s, x)
    decreases Owner(s, x)
  {
    y == x || (Owner(s, x) != ROOT && OnPath(s, Group(Owner(s, x)), y))
  }

  lemma {:induction false} OnPathIs(s: State, x: Entity, y: Entity)
    requires WellFormed(s) && Known(s, x) && Known(s, y) && OnPath(s, x, y)
    ensures y == x || (y.Group? && y.id <= Owner(s, x))
    decreases Owner(s, x)
  {
    if y != x {
      OnPathIs(s, Group(Owner(s, x)), y);
    }
  }

  lemma {:induction false} ForemostLine(s: State, x: Entity, y: Entity)
    requires WellFormed(s) && Known(s, x) && Known(s, y) && Foremost(s, x) && Foremost(s, y)
    ensures OnPath(s, x, y) || OnPath(s, y, x)
    decreases Owner(s, x) + Owner(s, y)
  {
    if Owner(s, x) > Owner(s, y) {
      ForemostLine(s, Group(Owner(s, x)), y);
      if OnPath(s, y, Group(Owner(s, x))) {
        OnPathIs(s, y, Group(Owner(s, x)));
      }
    } else if Owner(s, y) > Owner(s, x) {
      ForemostLine(s, x, Group(Owner(s, y)));
      if OnPath(s, x, Group(Owner(s, y))) {
        OnPathIs(s, x, Group(Owner(s, y)));
      }
    }
  }

  /** There is one foremost task at most, so to be foremost determines the pick. */
  lemma ForemostIsOne(s: State, t: nat, u: nat)
    requires WellFormed(s) && t in s.task && u in s.task && Foremost(s, Task(t)) && Foremost(s, Task(u))
    ensures t == u
  {
    ForemostLine(s, Task(t), Task(u));
    if OnPath(s, Task(t), Task(u)) {
      OnPathIs(s, Task(t), Task(u));
    } else {
      OnPathIs(s, Task(u), Task(t));
    }
  }

  /** A queued task of the same queue and priority as the foremost one stands behind it on their list. */
  lemma BehindForemost(s: State, t: nat, u: nat) returns (k: nat)
    requires Consistent(s) && t in s.task && u in s.task && t != u && Foremost(s, Task(t)) && Task(u) in s.onRq
    requires s.task[u].home == s.task[t].home && s.task[u].prio == s.task[t].prio
    ensures var l := s.rt[s.task[t].home].list[s.task[t].prio];
            0 < k < |l| && l[k] == Task(u) && l[0] == Task(t)
  {
    hide QueueOk;
    assert EntityOk(s, Task(u));
    var l := s.rt[s.task[t].home].list[s.task[t].prio];
    k :| 0 <= k < |l| && l[k] == Task(u);
  }

  // ----- Order

  lemma RemoveDownOrder(s: State, t: nat)
    requires Consistent(s) && t in s.task
    ensures var q := s.task[t].home;
            var r := RemoveDown(s, Task(t));
            q in r.rt && r.rt[q].list == Unlink(s.rt[q].list, Task(t))
  {
    hide QueueOk; hide EntityOk; hide Off;
    var q, e := s.task[t].home, Task(t);
    var m := if q == ROOT then s else RemoveDown(s, Group(q));
    if q != ROOT {
      assert Group(q) !in Above(s.tree, s.tree.parent[q]);
    }
    if e !in m.onRq {
      NotLinked(m, q, e);
    }
  }

  lemma NotLinked(s: State, q: nat, e: Entity)
    requires Consistent(s) && q in s.rt && e !in s.onRq
    ensures Unlink(s.rt[q].list, e) == s.rt[q].list
  {
    hide SumLists;
    assert QueueOk(s, q);
    forall p | 0 <= p < MAX_RT_PRIO ensures e !in s.rt[q].list[p] {
      assert PlacedAt(s, q, p, s.rt[q].list[p]);
    }
  }

  lemma LinkUpOrder(s: State, t: nat, head: bool)
    requires Consistent(s) && t in s.task && Off(s, Chain(s, Task(t)))
    ensures var q, p := s.task[t].home, s.task[t].prio;
            var r := LinkUp(s, Task(t), head, false);
            var l := s.rt[q].list[p];
            q in r.rt && r.rt[q].list == s.rt[q].list[p := if head then [Task(t)] + l else l + [Task(t)]]
  {
    hide QueueOk; hide EntityOk;
    var q, e := s.task[t].home, Task(t);
    LinkStep(s, e, head, false, Above(s.tree, q));
    if q != ROOT {
      var m := Link(s, e, head, false);
      FrameKnown(s, m, Above(s.tree, q), Chain(s, e), Group(q));
      assert Linked(m, LinkUp(m, Group(q), head, false), Group(q), false);
      assert Group(q) !in Above(s.tree, s.tree.parent[q]);
    }
  }

  /** A task is queued behind the tasks of its priority, or in front of them for `ENQUEUE_HEAD`; the
      order of all the others in its queue stays. */
  lemma EnqueueOrder(rq: Rq, t: nat, head: bool)
    requires Valid(rq) && t in rq.s.task
    ensures var q, p := rq.s.task[t].home, rq.s.task[t].prio;
            var ls := Unlink(rq.s.rt[q].list, Task(t));
            var r := Step(rq, Enqueue(t, head));
            q in r.s.rt && r.s.rt[q].list == ls[p := if head then [Task(t)] + ls[p] else ls[p] + [Task(t)]]
  {
    hide QueueOk; hide EntityOk; hide Off; hide Frame; hide RemoveDown; hide LinkUp; hide Linked;
    var m := RemoveDown(rq.s, Task(t));
    UnlinkedKnown(rq.s, m, Task(t));
    RemoveDownOrder(rq.s, t);
    SameTask(rq.s, m, t);
    LinkUpOrder(m, t, head);
  }

  lemma SameTask(s: State, r: State, t: nat)
    requires WellFormed(s) && t in s.task && Unlinked(s, r, Task(t))
    ensures r.task == s.task
  {
    hide Consistent; hide Off;
  }
}
