/** The ungrouped real-time class: per-CPU priority arrays with cached aggregates, the list of
    pushable tasks, and the overload mask and count of the root domain. */
module RtArray {
  import opened Lists

  /** A real-time task. `cpu` is its run queue; `onRq` and `onList` are the flags of its entity. */
  datatype RtTask = RtTask(prio: nat, allowed: nat, cpu: nat, onRq: bool, onList: bool)

  /** A CPU's real-time queue, with the task it runs (-1 when that is not a real-time one). */
  datatype CpuRq = CpuRq(queue: seq<seq<nat>>, bitmap: seq<bool>, nr: int, curr: nat, next: nat,
                   total: int, migratory: int, overloaded: bool, pushable: seq<nat>, current: int, online: bool)

  datatype Flags = Flags(save: bool, move: bool, head: bool)

  predicate MoveEntity(f: Flags) { !f.save || f.move }

  lemma FirstBitIs(b: seq<bool>, k: nat)
    requires |b| == MAX_RT_PRIO + 1 && b[MAX_RT_PRIO] && k <= MAX_RT_PRIO && b[k] && forall i :: 0 <= i < k ==> !b[i]
    ensures FirstBit(b, 0) == k
  {
  }

  // ----- What a scan of the queues gives

  ghost function Queued(ts: map<nat, RtTask>, c: nat): set<nat> {
    set t | t in ts && ts[t].cpu == c && ts[t].onRq
  }

  ghost function Movable(ts: map<nat, RtTask>, c: nat): set<nat> {
    set t | t in ts && ts[t].cpu == c && ts[t].onRq && ts[t].allowed > 1
  }

  ghost predicate Listed(ts: map<nat, RtTask>, c: nat, i: nat, t: nat) {
    t in ts && ts[t].cpu == c && ts[t].onList && ts[t].prio == i
  }

  /** Slot `i` holds the listed tasks of priority `i`, once each, and its bit says whether there are any. */
  ghost predicate SlotOk(list: seq<nat>, bit: bool, c: nat, ts: map<nat, RtTask>, i: nat) {
    Distinct(list) && bit == (list != []) && forall t :: t in list <==> Listed(ts, c, i, t)
  }

  ghost predicate ListsOk(q: CpuRq, c: nat, ts: map<nat, RtTask>) {
    && |q.queue| == MAX_RT_PRIO && |q.bitmap| == MAX_RT_PRIO + 1 && q.bitmap[MAX_RT_PRIO]
    && forall i :: 0 <= i < MAX_RT_PRIO ==> SlotOk(q.queue[i], q.bitmap[i], c, ts, i)
  }

  ghost predicate PrioOk(q: CpuRq, c: nat, ts: map<nat, RtTask>)
    requires |q.bitmap| == MAX_RT_PRIO + 1 && q.bitmap[MAX_RT_PRIO]
  {
    && q.nr == |Queued(ts, c)|
    && q.curr == if q.nr == 0 then MAX_RT_PRIO else FirstBit(q.bitmap, 0)
  }

  ghost predicate CountsOk(q: CpuRq, c: nat, ts: map<nat, RtTask>) {
    && q.total == |Queued(ts, c)|
    && q.migratory == |Movable(ts, c)|
  }

  predicate Crowded(q: CpuRq) { q.migratory != 0 && q.total > 1 }

  ghost predicate Sorted(s: seq<nat>, ts: map<nat, RtTask>) {
    forall i, j :: 0 <= i < j < |s| && s[i] in ts && s[j] in ts ==> ts[s[i]].prio <= ts[s[j]].prio
  }

  /** The pushable tasks are the queued ones that may move and do not run, best first. */
  ghost predicate PushOk(q: CpuRq, c: nat, ts: map<nat, RtTask>) {
    && Distinct(q.pushable) && Sorted(q.pushable, ts)
    && (forall t :: t in q.pushable <==> t in Movable(ts, c) && t != q.current)
    && NextOk(q, ts)
  }

  ghost predicate NextOk(q: CpuRq, ts: map<nat, RtTask>) {
    if q.pushable == [] then q.next == MAX_RT_PRIO
    else q.pushable[0] in ts && q.next == ts[q.pushable[0]].prio
  }

  ghost predicate CurrentOk(q: CpuRq, c: nat, ts: map<nat, RtTask>) {
    q.current >= 0 ==> q.current in ts && ts[q.current].cpu == c
  }

  /** All that CPU `c` caches is what a scan gives. */
  ghost predicate RqOk(q: CpuRq, c: nat, ts: map<nat, RtTask>) {
    && ListsOk(q, c, ts) && PrioOk(q, c, ts) && CountsOk(q, c, ts) && PushOk(q, c, ts)
    && q.overloaded == Crowded(q) && CurrentOk(q, c, ts)
  }

  /** A CPU is overloaded exactly when it has a task that may move and another one. */
  lemma OverloadedIff(q: CpuRq, c: nat, ts: map<nat, RtTask>)
    requires RqOk(q, c, ts)
    ensures q.overloaded <==> exists t, u :: t in Movable(ts, c) && u in Queued(ts, c) && t != u
  {
    hide ListsOk; hide PrioOk; hide PushOk;
    if q.overloaded {
      var t :| t in Movable(ts, c);
      var rest := Queued(ts, c) - {t};
      assert |rest| == |Queued(ts, c)| - 1;
      var u :| u in rest;
      assert t in Movable(ts, c) && u in Queued(ts, c) && t != u;
    }
    if t, u :| t in Movable(ts, c) && u in Queued(ts, c) && t != u {
      TwoAtLeast(Queued(ts, c), t, u);
    }
  }

  lemma TwoAtLeast(s: set<nat>, t: nat, u: nat)
    requires t in s && u in s && t != u
    ensures |s| >= 2
  {
    assert |s - {t}| == |s| - 1 && u in s - {t};
  }

  // ----- A task that changes elsewhere

  /** Task `t` is not, before and after, in any way on CPU `d`. */
  ghost predicate Absent(ts: map<nat, RtTask>, t: nat, d: nat) {
    t in ts ==> ts[t].cpu != d || (!ts[t].onRq && !ts[t].onList)
  }

  lemma OtherCpu(q: CpuRq, d: nat, ts: map<nat, RtTask>, t: nat, k: RtTask)
    requires RqOk(q, d, ts) && Absent(ts, t, d) && Absent(ts[t := k], t, d) && (q.current == t ==> k.cpu == d)
    ensures RqOk(q, d, ts[t := k])
  {
    var ts' := ts[t := k];
    assert Queued(ts', d) == Queued(ts, d);
    assert Movable(ts', d) == Movable(ts, d);
    forall i | 0 <= i < MAX_RT_PRIO ensures SlotOk(q.queue[i], q.bitmap[i], d, ts', i) {
      assert forall u :: Listed(ts', d, i, u) <==> Listed(ts, d, i, u);
    }
    assert t !in q.pushable;
  }

  // ----- Taking a task off and putting it on

  /** Slot `i` after the task left it. */
  lemma SlotLeave(list: seq<nat>, c: nat, ts: map<nat, RtTask>, t: nat, i: nat, k: RtTask)
    requires SlotOk(list, list != [], c, ts, i) && t in ts && ts[t].cpu == c && ts[t].prio == i && !k.onList
    ensures SlotOk(Without(list, t), Without(list, t) != [], c, ts[t := k], i)
  {
    WithoutDistinct(list, t);
  }

  lemma SlotJoin(list: seq<nat>, c: nat, ts: map<nat, RtTask>, t: nat, k: RtTask, head: bool)
    requires SlotOk(list, list != [], c, ts, k.prio) && Absent(ts, t, c) && k.cpu == c && k.onList
    ensures var r := if head then [t] + list else list + [t];
            SlotOk(r, true, c, ts[t := k], k.prio)
  {
    assert t !in list;
  }

  /** A slot the task is not in before or after. */
  lemma SlotStay(list: seq<nat>, bit: bool, c: nat, ts: map<nat, RtTask>, t: nat, i: nat, k: RtTask)
    requires SlotOk(list, bit, c, ts, i) && (Listed(ts, c, i, t) <==> Listed(ts[t := k], c, i, t))
    ensures SlotOk(list, bit, c, ts[t := k], i)
  {
    assert forall u :: Listed(ts[t := k], c, i, u) <==> Listed(ts, c, i, u);
  }

  lemma QueuedChange(ts: map<nat, RtTask>, c: nat, t: nat, k: RtTask)
    requires t in ts
    ensures Queued(ts[t := k], c) == if k.cpu == c && k.onRq then Queued(ts, c) + {t} else Queued(ts, c) - {t}
    ensures Movable(ts[t := k], c) == if k.cpu == c && k.onRq && k.allowed > 1 then Movable(ts, c) + {t}
            else Movable(ts, c) - {t}
  {
  }

  /** The pushable tasks, leaving open whether `t` is among them. */
  ghost predicate PushRest(q: CpuRq, c: nat, ts: map<nat, RtTask>, t: nat) {
    && Distinct(q.pushable) && Sorted(q.pushable, ts) && NextOk(q, ts) && (t in q.pushable ==> t in ts)
    && (forall u :: u != t ==> (u in q.pushable <==> u in Movable(ts, c) && u != q.current))
  }

  ghost predicate ScanOk(q: CpuRq, c: nat, ts: map<nat, RtTask>, t: nat) {
    ListsOk(q, c, ts) && PrioOk(q, c, ts) && CountsOk(q, c, ts) && PushRest(q, c, ts, t)
  }

  lemma PushRestStay(q: CpuRq, c: nat, ts: map<nat, RtTask>, t: nat, k: RtTask)
    requires PushRest(q, c, ts, t) && t in ts && k.prio == ts[t].prio
    ensures PushRest(q, c, ts[t := k], t)
  {
    QueuedChange(ts, c, t, k);
  }

  lemma ListsLeave(q: CpuRq, c: nat, ts: map<nat, RtTask>, t: nat, k: RtTask)
    requires ListsOk(q, c, ts) && t in ts && ts[t].cpu == c && ts[t].prio < MAX_RT_PRIO && !k.onList
    ensures var p := ts[t].prio;
            var l := Without(q.queue[p], t);
            ListsOk(q.(queue := q.queue[p := l], bitmap := q.bitmap[p := l != []]), c, ts[t := k])
  {
    var p := ts[t].prio;
    var l := Without(q.queue[p], t);
    var r := q.(queue := q.queue[p := l], bitmap := q.bitmap[p := l != []]);
    forall i | 0 <= i < MAX_RT_PRIO ensures SlotOk(r.queue[i], r.bitmap[i], c, ts[t := k], i) {
      assert SlotOk(q.queue[i], q.bitmap[i], c, ts, i);
      if i == p {
        SlotLeave(q.queue[p], c, ts, t, p, k);
      } else {
        SlotStay(q.queue[i], q.bitmap[i], c, ts, t, i, k);
      }
    }
  }

  lemma ListsJoin(q: CpuRq, c: nat, ts: map<nat, RtTask>, t: nat, k: RtTask, head: bool)
    requires ListsOk(q, c, ts) && Absent(ts, t, c) && k.cpu == c && k.prio < MAX_RT_PRIO && k.onList
    ensures var l := q.queue[k.prio];
            var l' := if head then [t] + l else l + [t];
            ListsOk(q.(queue := q.queue[k.prio := l'], bitmap := q.bitmap[k.prio := true]), c, ts[t := k])
  {
    var l := q.queue[k.prio];
    var l' := if head then [t] + l else l + [t];
    var r := q.(queue := q.queue[k.prio := l'], bitmap := q.bitmap[k.prio := true]);
    forall i | 0 <= i < MAX_RT_PRIO ensures SlotOk(r.queue[i], r.bitmap[i], c, ts[t := k], i) {
      assert SlotOk(q.queue[i], q.bitmap[i], c, ts, i);
      if i == k.prio {
        SlotJoin(l, c, ts, t, k, head);
      } else {
        SlotStay(q.queue[i], q.bitmap[i], c, ts, t, i, k);
      }
    }
  }

  lemma ListsStay(q: CpuRq, c: nat, ts: map<nat, RtTask>, t: nat, k: RtTask)
    requires ListsOk(q, c, ts) && t in ts && k == ts[t].(onRq := k.onRq, allowed := k.allowed)
    ensures ListsOk(q, c, ts[t := k])
  {
    forall i | 0 <= i < MAX_RT_PRIO ensures SlotOk(q.queue[i], q.bitmap[i], c, ts[t := k], i) {
      assert SlotOk(q.queue[i], q.bitmap[i], c, ts, i);
      SlotStay(q.queue[i], q.bitmap[i], c, ts, t, i, k);
    }
  }

  /** The bit of a listed task is set. */
  lemma BitSet(q: CpuRq, c: nat, ts: map<nat, RtTask>, t: nat)
    requires ListsOk(q, c, ts) && t in ts && ts[t].cpu == c && ts[t].onList && ts[t].prio < MAX_RT_PRIO
    ensures q.bitmap[ts[t].prio] && t in q.queue[ts[t].prio]
  {
    var p := ts[t].prio;
    assert SlotOk(q.queue[p], q.bitmap[p], c, ts, p) && Listed(ts, c, p, t);
  }

  /** `__delist_rt_entity`. */
  method DelistEntity(q: CpuRq, t: nat, prio: nat) returns (r: CpuRq)
    requires |q.queue| == MAX_RT_PRIO && |q.bitmap| == MAX_RT_PRIO + 1 && prio < MAX_RT_PRIO && q.bitmap[prio]
    ensures var l := Without(q.queue[prio], t);
            r == q.(queue := q.queue[prio := l], bitmap := q.bitmap[prio := l != []])
  {
    r := q.(queue := q.queue[prio := Without(q.queue[prio], t)]);
    if r.queue[prio] == [] {
      r := r.(bitmap := r.bitmap[prio := false]);
    } else {
      assert q.bitmap[prio := true] == q.bitmap;
    }
  }

  /** `dec_rt_prio`; a task better than the best one never leaves. */
  method DecPrio(q: CpuRq, prio: nat) returns (r: CpuRq)
    requires |q.bitmap| == MAX_RT_PRIO + 1 && q.bitmap[MAX_RT_PRIO] && prio < MAX_RT_PRIO
    requires q.nr != 0 ==> q.curr <= prio && (q.curr < prio ==> q.bitmap[q.curr]) && forall i :: 0 <= i < q.curr ==>
             !q.bitmap[i]
    ensures r == q.(curr := if q.nr == 0 then MAX_RT_PRIO else FirstBit(q.bitmap, 0))
  {
    r := q;
    if r.nr != 0 {
      assert prio >= q.curr;
      if prio == q.curr {
        r := r.(curr := FirstBit(r.bitmap, 0));
      } else {
        FirstBitIs(r.bitmap, q.curr);
      }
    } else {
      r := r.(curr := MAX_RT_PRIO);
    }
  }

  /** The counters and the best priority, once the lists are right. */
  lemma LeaveScan(q: CpuRq, r: CpuRq, c: nat, ts: map<nat, RtTask>, t: nat, k: RtTask)
    requires ScanOk(q, c, ts, t) && t in ts && ts[t].cpu == c && ts[t].onRq
    requires k == ts[t].(onRq := false, onList := k.onList) && ListsOk(r, c, ts[t := k])
    requires r.nr == q.nr - 1 && r.curr == (if r.nr == 0 then MAX_RT_PRIO else FirstBit(r.bitmap, 0))
    requires r.total == q.total - 1 && r.migratory == q.migratory - (if k.allowed > 1 then 1 else 0)
    requires r.pushable == q.pushable && r.next == q.next && r.current == q.current
    ensures ScanOk(r, c, ts[t := k], t)
  {
    hide PushRest; hide Queued; hide Movable; hide FirstBit; hide SlotOk;
    QueuedChange(ts, c, t, k);
    InSets(ts, c, t);
    PushRestStay(q, c, ts, t, k);
    PushSame(q, r, c, ts[t := k], t);
  }

  /** `__dequeue_rt_entity`, short of the overload update. */
  method DequeueEntity(q: CpuRq, c: nat, ts: map<nat, RtTask>, t: nat, f: Flags) returns (r: CpuRq)
    requires ScanOk(q, c, ts, t) && t in ts && ts[t].cpu == c && ts[t].onRq && ts[t].onList && ts[t].prio < MAX_RT_PRIO
    ensures ScanOk(r, c, ts[t := ts[t].(onRq := false, onList := !MoveEntity(f))], t)
    ensures r.queue == if MoveEntity(f) then q.queue[ts[t].prio := Without(q.queue[ts[t].prio], t)] else q.queue
    ensures r.pushable == q.pushable && r.current == q.current && r.online == q.online && r.overloaded == q.overloaded
  {
    hide SlotOk; hide PushRest; hide CountsOk; hide Queued; hide FirstBit; hide Without;
    ghost var k := ts[t].(onRq := false, onList := !MoveEntity(f));
    ghost var ts' := ts[t := k];
    BitSet(q, c, ts, t);
    assert t in Queued(ts, c) by { InSets(ts, c, t); }
    r := q;
    if MoveEntity(f) {
      ListsLeave(q, c, ts, t, k);
      r := DelistEntity(q, t, ts[t].prio);
    } else {
      ListsStay(q, c, ts, t, k);
    }
    ghost var r0 := r;
    r := r.(nr := r.nr - 1);
    r := DecPrio(r, ts[t].prio);
    r := r.(total := r.total - 1);
    if ts[t].allowed > 1 {
      r := r.(migratory := r.migratory - 1);
    }
    hide ListsOk;
    ListsSame(r, r0, c, ts');
    LeaveScan(q, r, c, ts, t, k);
  }

  lemma InSets(ts: map<nat, RtTask>, c: nat, t: nat)
    requires t in ts
    ensures t in Queued(ts, c) <==> ts[t].cpu == c && ts[t].onRq
    ensures t in Movable(ts, c) <==> ts[t].cpu == c && ts[t].onRq && ts[t].allowed > 1
  {
  }

  lemma ListsSame(q: CpuRq, r: CpuRq, c: nat, ts: map<nat, RtTask>)
    requires ListsOk(r, c, ts) && q.queue == r.queue && q.bitmap == r.bitmap
    ensures ListsOk(q, c, ts)
  {
  }

  lemma PushSame(q: CpuRq, r: CpuRq, c: nat, ts: map<nat, RtTask>, t: nat)
    requires PushRest(q, c, ts, t) && r.pushable == q.pushable && r.next == q.next && r.current == q.current
    ensures PushRest(r, c, ts, t)
  {
  }

  /** Apart from `t`, the tasks on the lists of CPU `c` are the queued ones. */
  ghost predicate Settled(ts: map<nat, RtTask>, c: nat, t: nat) {
    forall u :: u in ts && u != t && ts[u].cpu == c ==> (ts[u].onRq <==> ts[u].onList)
  }

  /** A set bit other than that of `t` means that something is queued. */
  lemma BusyBit(q: CpuRq, c: nat, ts: map<nat, RtTask>, t: nat, i: nat)
    requires ListsOk(q, c, ts) && PrioOk(q, c, ts) && Settled(ts, c, t) && t in ts
    requires i < MAX_RT_PRIO && i != ts[t].prio
    ensures q.bitmap[i] ==> q.nr != 0
  {
    assert SlotOk(q.queue[i], q.bitmap[i], c, ts, i);
    if q.bitmap[i] {
      var u := q.queue[i][0];
      assert u in q.queue[i] && Listed(ts, c, i, u);
      assert u in Queued(ts, c);
    }
  }

  /** The best priority once `t` is in. */
  lemma BestWith(q: CpuRq, c: nat, ts: map<nat, RtTask>, t: nat)
    requires ListsOk(q, c, ts) && PrioOk(q, c, ts) && Settled(ts, c, t) && t in ts && ts[t].prio < MAX_RT_PRIO
    ensures var p := ts[t].prio;
            FirstBit(q.bitmap[p := true], 0) == if p < q.curr then p else q.curr
  {
    var p := ts[t].prio;
    var b := q.bitmap[p := true];
    if q.nr == 0 {
      forall i | 0 <= i < p ensures q.bitmap[i] ==> q.nr != 0 {
        BusyBit(q, c, ts, t, i);
      }
      FirstBitIs(b, p);
    } else if p < q.curr {
      FirstBitIs(b, p);
    } else {
      FirstBitIs(b, q.curr);
    }
  }

  /** Linking an entity and setting its bit. */
  method EnlistEntity(q: CpuRq, t: nat, prio: nat, head: bool) returns (r: CpuRq)
    requires |q.queue| == MAX_RT_PRIO && |q.bitmap| == MAX_RT_PRIO + 1 && prio < MAX_RT_PRIO
    ensures var l := q.queue[prio];
            r == q.(queue := q.queue[prio := if head then [t] + l else l + [t]], bitmap := q.bitmap[prio := true])
  {
    var l := q.queue[prio];
    if head {
      r := q.(queue := q.queue[prio := [t] + l]);
    } else {
      r := q.(queue := q.queue[prio := l + [t]]);
    }
    r := r.(bitmap := r.bitmap[prio := true]);
  }

  /** The counters and the best priority, once the lists are right. */
  lemma JoinScan(q: CpuRq, r: CpuRq, c: nat, ts: map<nat, RtTask>, t: nat, k: RtTask)
    requires ScanOk(q, c, ts, t) && Settled(ts, c, t) && t in ts && ts[t].cpu == c && !ts[t].onRq &&
             ts[t].prio < MAX_RT_PRIO
    requires k == ts[t].(onRq := true, onList := true) && ListsOk(r, c, ts[t := k])
    requires r.bitmap == q.bitmap[k.prio := true] && r.nr == q.nr + 1 &&
             r.curr == (if k.prio < q.curr then k.prio else q.curr)
    requires r.total == q.total + 1 && r.migratory == q.migratory + (if k.allowed > 1 then 1 else 0)
    requires r.pushable == q.pushable && r.next == q.next && r.current == q.current
    ensures ScanOk(r, c, ts[t := k], t)
  {
    hide PushRest; hide Queued; hide Movable; hide FirstBit; hide Settled; hide SlotOk;
    QueuedChange(ts, c, t, k);
    InSets(ts, c, t);
    BestWith(q, c, ts, t);
    PushRestStay(q, c, ts, t, k);
    PushSame(q, r, c, ts[t := k], t);
  }

  /** `__enqueue_rt_entity`, short of the overload update. */
  method EnqueueEntity(q: CpuRq, c: nat, ts: map<nat, RtTask>, t: nat, f: Flags) returns (r: CpuRq)
    requires ScanOk(q, c, ts, t) && Settled(ts, c, t)
    requires t in ts && ts[t].cpu == c && !ts[t].onRq && (ts[t].onList <==> !MoveEntity(f)) && ts[t].prio < MAX_RT_PRIO
    ensures ScanOk(r, c, ts[t := ts[t].(onRq := true, onList := true)], t)
    ensures var l := q.queue[ts[t].prio];
            r.queue == if MoveEntity(f) then q.queue[ts[t].prio := if f.head then [t] + l else l + [t]] else q.queue
    ensures r.pushable == q.pushable && r.current == q.current && r.online == q.online && r.overloaded == q.overloaded
  {
    hide PushRest; hide PrioOk; hide CountsOk; hide SlotOk; hide Settled;
    var prio := ts[t].prio;
    ghost var k := ts[t].(onRq := true, onList := true);
    ghost var ts' := ts[t := k];
    r := q;
    if MoveEntity(f) {
      ListsJoin(q, c, ts, t, k, f.head);
      r := EnlistEntity(q, t, prio, f.head);
    } else {
      BitSet(q, c, ts, t);
      assert q.bitmap[prio := true] == q.bitmap;
      ListsStay(q, c, ts, t, k);
    }
    assert ListsOk(r, c, ts');
    hide ListsOk;
    ghost var r0 := r;
    r := r.(nr := r.nr + 1);
    if prio < r.curr {
      r := r.(curr := prio);
    }
    r := r.(total := r.total + 1);
    if ts[t].allowed > 1 {
      r := r.(migratory := r.migratory + 1);
    }
    ListsSame(r, r0, c, ts');
    JoinScan(q, r, c, ts, t, k);
  }

  // ----- Pushable tasks

  /** `plist_add`: behind the tasks that are no worse. */
  function PlistAdd(s: seq<nat>, ts: map<nat, RtTask>, t: nat): (r: seq<nat>)
    requires t in ts && forall u :: u in s ==> u in ts
    ensures forall u :: u in r <==> u in s || u == t
    ensures r != [] && r[0] == if s == [] || ts[s[0]].prio > ts[t].prio then t else s[0]
  {
    if s == [] || ts[s[0]].prio > ts[t].prio then [t] + s else [s[0]] + PlistAdd(s[1..], ts, t)
  }

  lemma {:induction false} PlistAddOk(s: seq<nat>, ts: map<nat, RtTask>, t: nat)
    requires t in ts && (forall u :: u in s ==> u in ts) && Distinct(s) && t !in s && Sorted(s, ts)
    ensures Distinct(PlistAdd(s, ts, t)) && Sorted(PlistAdd(s, ts, t), ts)
  {
    var r := PlistAdd(s, ts, t);
    if s == [] || ts[s[0]].prio > ts[t].prio {
      forall u | u in s ensures ts[t].prio <= ts[u].prio {
      }
      Prepend(t, s, ts);
    } else {
      PlistAddOk(s[1..], ts, t);
      var rest := PlistAdd(s[1..], ts, t);
      forall u | u in rest ensures ts[s[0]].prio <= ts[u].prio && u != s[0] {
        if u != t {
          var i :| 0 <= i < |s[1..]| && s[1..][i] == u;
          assert s[i + 1] == u;
        }
      }
      hide PlistAdd;
      Prepend(s[0], rest, ts);
      assert r == [s[0]] + rest;
    }
  }

  lemma Prepend(h: nat, rest: seq<nat>, ts: map<nat, RtTask>)
    requires h in ts && Distinct(rest) && Sorted(rest, ts)
    requires forall u :: u in rest ==> u in ts && ts[h].prio <= ts[u].prio && u != h
    ensures Distinct([h] + rest) && Sorted([h] + rest, ts)
  {
    var r := [h] + rest;
    assert forall i :: 1 <= i < |r| ==> r[i] == rest[i - 1] && r[i] in rest;
  }

  lemma {:induction false} WithoutSorted(s: seq<nat>, ts: map<nat, RtTask>, t: nat)
    requires (forall u :: u in s ==> u in ts) && Sorted(s, ts)
    ensures Sorted(Without(s, t), ts)
  {
    if s != [] {
      WithoutSorted(s[1..], ts, t);
      forall u | u in Without(s[1..], t) ensures ts[s[0]].prio <= ts[u].prio {
        var i :| 0 <= i < |s[1..]| && s[1..][i] == u;
        assert s[i + 1] == u;
      }
    }
  }

  lemma PlistMove(s: seq<nat>, ts: map<nat, RtTask>, t: nat)
    requires t in ts && (forall u :: u in s ==> u in ts) && Distinct(s) && Sorted(s, ts)
    ensures var r := PlistAdd(Without(s, t), ts, t);
            && Distinct(r) && Sorted(r, ts) && (forall u :: u in r <==> u in s || u == t)
            && r[0] in ts && ts[r[0]].prio == if s == [] || ts[t].prio < ts[s[0]].prio then ts[t].prio
               else ts[s[0]].prio
  {
    WithoutDistinct(s, t);
    WithoutSorted(s, ts, t);
    PlistAddOk(Without(s, t), ts, t);
    HeadStays(s, ts, t);
    hide Without; hide PlistAdd; hide Sorted;
  }

  /** `enqueue_pushable_task`. */
  method EnqueuePushable(q: CpuRq, c: nat, ts: map<nat, RtTask>, t: nat) returns (r: CpuRq)
    requires PushRest(q, c, ts, t) && t in ts && ts[t].prio < MAX_RT_PRIO
    ensures PushRest(r, c, ts, t) && t in r.pushable
    ensures r == q.(pushable := r.pushable, next := r.next)
    ensures (forall u :: u in Without(q.pushable, t) ==> u in ts) &&
            r.pushable == PlistAdd(Without(q.pushable, t), ts, t)
  {
    hide Movable; hide Without; hide PlistAdd; hide Sorted; hide Distinct;
    assert forall u :: u in q.pushable ==> u in ts by { MovableKnown(ts, c); }
    PlistMove(q.pushable, ts, t);
    r := q.(pushable := PlistAdd(Without(q.pushable, t), ts, t));
    if ts[t].prio < r.next {
      r := r.(next := ts[t].prio);
    }
  }

  /** What `enqueue_pushable_task` makes of a pushable list. */
  ghost function Repush(s: seq<nat>, ts: map<nat, RtTask>, t: nat): seq<nat> {
    if t in ts && forall u :: u in Without(s, t) ==> u in ts then PlistAdd(Without(s, t), ts, t) else Without(s, t)
  }

  /** The pushable list after task `t` was taken off it and, if it is queued, may move and does not run,
      added again. */
  ghost function Listing(s: seq<nat>, current: int, ts: map<nat, RtTask>, t: nat): seq<nat> {
    if t in ts && ts[t].onRq && current != t && ts[t].allowed > 1 then Repush(s, ts, t) else Without(s, t)
  }

  lemma ListingTwice(s: seq<nat>, current: int, ts: map<nat, RtTask>, t: nat)
    ensures Listing(Without(s, t), current, ts, t) == Listing(s, current, ts, t)
  {
    assert Without(Without(s, t), t) == Without(s, t);
  }

  /** No task as good as `t` stands behind it. */
  ghost predicate LastOfEquals(s: seq<nat>, ts: map<nat, RtTask>, t: nat) {
    forall i, j :: 0 <= i < j < |s| && s[i] == t && t in ts && s[j] in ts ==> ts[s[j]].prio != ts[t].prio
  }

  lemma RepushHead(s: seq<nat>, ts: map<nat, RtTask>)
    requires s != [] && (forall u :: u in s ==> u in ts) && Distinct(s) && Sorted(s, ts)
    ensures Repush(s, ts, s[0]) == s <==> LastOfEquals(s, ts, s[0])
  {
    var t, rest := s[0], s[1..];
    assert s == [t] + rest;
    assert t !in rest;
    assert Without(s, t) == rest;
    if |s| > 1 {
      assert rest[0] == s[1] && s[1] in s;
      if ts[s[1]].prio == ts[t].prio {
        assert PlistAdd(rest, ts, t)[0] == s[1];
      } else {
        assert Repush(s, ts, t) == s;
        forall j | 0 < j < |s| ensures s[j] in ts && ts[s[j]].prio != ts[t].prio {
          assert s[j] in s && ts[s[1]].prio <= ts[s[j]].prio;
        }
      }
    }
  }

  lemma RepushTail(s: seq<nat>, ts: map<nat, RtTask>, t: nat)
    requires t in s && s[0] != t && (forall u :: u in s ==> u in ts) && Sorted(s, ts)
    ensures t in s[1..] && Repush(s, ts, t) == [s[0]] + Repush(s[1..], ts, t)
  {
    var rest := s[1..];
    assert s == [s[0]] + rest;
    var k :| 0 <= k < |rest| && rest[k] == t;
    assert s[k + 1] == t && ts[s[0]].prio <= ts[t].prio;
    var w := Without(rest, t);
    assert Without(s, t) == [s[0]] + w;
    assert ([s[0]] + w)[1..] == w;
    assert PlistAdd([s[0]] + w, ts, t) == [s[0]] + PlistAdd(w, ts, t);
  }

  lemma TailKnown(s: seq<nat>, ts: map<nat, RtTask>)
    requires s != [] && (forall u :: u in s ==> u in ts) && Distinct(s) && Sorted(s, ts)
    ensures (forall u :: u in s[1..] ==> u in ts) && Distinct(s[1..]) && Sorted(s[1..], ts)
  {
  }

  lemma SameHead(s: seq<nat>, rest: seq<nat>)
    requires s != []
    ensures [s[0]] + rest == s <==> rest == s[1..]
  {
    assert ([s[0]] + rest)[1..] == rest;
    assert [s[0]] + s[1..] == s;
  }

  /** Taking a task off the pushable list and adding it again restores the list exactly when it was the
      last of its equals; otherwise it lands behind them. */
  lemma {:induction false} RepushSame(s: seq<nat>, ts: map<nat, RtTask>, t: nat)
    requires t in s && (forall u :: u in s ==> u in ts) && Distinct(s) && Sorted(s, ts)
    ensures Repush(s, ts, t) == s <==> LastOfEquals(s, ts, t)
  {
    if s[0] == t {
      RepushHead(s, ts);
    } else {
      RepushTail(s, ts, t);
      TailKnown(s, ts);
      RepushSame(s[1..], ts, t);
      LastOfTail(s, ts, t);
      hide Repush; hide LastOfEquals; hide Sorted; hide Distinct;
      SameHead(s, Repush(s[1..], ts, t));
    }
  }

  /** A SAVE/RESTORE pair leaves the pushable list of an exact queue alone just when no equal stands
      behind the task. */
  lemma PairKeepsPushable(q: CpuRq, c: nat, ts: map<nat, RtTask>, t: nat, n: nat)
    requires RqOk(q, c, ts) && t in q.pushable && t in ts
    ensures Repush(q.pushable, ts[t := ts[t].(allowed := n)], t) == q.pushable <==> LastOfEquals(q.pushable, ts, t)
  {
    hide ListsOk; hide PrioOk; hide CountsOk; hide Repush; hide Movable;
    var ts' := ts[t := ts[t].(allowed := n)];
    assert forall u :: u in q.pushable ==> u in ts by { MovableKnown(ts, c); }
    RepushSame(q.pushable, ts', t);
  }

  lemma LastOfTail(s: seq<nat>, ts: map<nat, RtTask>, t: nat)
    requires s != [] && s[0] != t
    ensures LastOfEquals(s, ts, t) <==> LastOfEquals(s[1..], ts, t)
  {
    if LastOfEquals(s[1..], ts, t) {
      forall i, j | 0 <= i < j < |s| && s[i] == t && t in ts && s[j] in ts ensures ts[s[j]].prio != ts[t].prio {
        assert s[1..][i - 1] == t && s[1..][j - 1] == s[j];
      }
    }
  }

  /** Adding a task to the list of one equal, and the pair on the first of two equals. */
  lemma RepushSwaps(ts: map<nat, RtTask>, t: nat, u: nat)
    requires t in ts && u in ts && t != u && ts[t].prio == ts[u].prio
    ensures Repush([], ts, t) == [t] && Repush([t], ts, u) == [t, u] && Repush([t, u], ts, t) == [u, t]
  {
    assert [t][1..] == [] && [u][1..] == [] && [t, u][1..] == [u];
    assert Without([t], u) == [t] && Without([t, u], t) == [u];
    assert PlistAdd([], ts, u) == [u] && PlistAdd([], ts, t) == [t];
  }

  lemma MovableKnown(ts: map<nat, RtTask>, c: nat)
    ensures forall u :: u in Movable(ts, c) ==> u in ts
  {
  }

  /** Taking `t` out can only make the head worse, and not better than `t`. */
  lemma HeadStays(s: seq<nat>, ts: map<nat, RtTask>, t: nat)
    requires t in ts && (forall u :: u in s ==> u in ts) && Sorted(s, ts)
    ensures var r := Without(s, t);
            && (s != [] && s[0] != t ==> r != [] && r[0] == s[0])
            && (s != [] && s[0] == t && r != [] ==> ts[t].prio <= ts[r[0]].prio)
            && (s == [] ==> r == [])
  {
    var r := Without(s, t);
    if s != [] && s[0] == t && r != [] {
      assert r[0] in s;
      var i :| 0 <= i < |s| && s[i] == r[0];
    }
  }

  /** `dequeue_pushable_task`. */
  method DequeuePushable(q: CpuRq, c: nat, ts: map<nat, RtTask>, t: nat) returns (r: CpuRq)
    requires PushRest(q, c, ts, t)
    ensures PushRest(r, c, ts, t) && t !in r.pushable
    ensures r == q.(pushable := Without(q.pushable, t), next := r.next)
  {
    hide Movable;
    assert forall u :: u in q.pushable ==> u in ts by { MovableKnown(ts, c); }
    WithoutDistinct(q.pushable, t);
    WithoutSorted(q.pushable, ts, t);
    r := q.(pushable := Without(q.pushable, t));
    if r.pushable != [] {
      assert r.pushable[0] in r.pushable;
      r := r.(next := ts[r.pushable[0]].prio);
    } else {
      r := r.(next := MAX_RT_PRIO);
    }
  }

  // ----- The root domain

  ghost predicate Others(rqs: map<nat, CpuRq>, ts: map<nat, RtTask>, c: nat) {
    forall d :: d in rqs && d != c ==> RqOk(rqs[d], d, ts)
  }

  /** The overload mask and count are those of the online, overloaded CPUs. */
  ghost predicate MaskOk(rqs: map<nat, CpuRq>, mask: set<nat>, count: int) {
    count == |mask| && forall d :: d in mask <==> d in rqs && rqs[d].online && rqs[d].overloaded
  }

  ghost predicate TasksOk(rqs: map<nat, CpuRq>, ts: map<nat, RtTask>) {
    forall t :: t in ts ==> ts[t].prio < MAX_RT_PRIO && ts[t].cpu in rqs
  }

  lemma OthersStay(rqs: map<nat, CpuRq>, ts: map<nat, RtTask>, c: nat, t: nat, k: RtTask, q: CpuRq)
    requires Others(rqs, ts, c) && t in ts && ts[t].cpu == c == k.cpu
    ensures Others(rqs[c := q], ts[t := k], c)
  {
    hide ListsOk; hide PrioOk; hide CountsOk; hide PushOk;
    forall d | d in rqs && d != c ensures RqOk(rqs[d], d, ts[t := k]) {
      OtherCpu(rqs[d], d, ts, t, k);
    }
  }

  /** CPU `c` while one of its tasks, `t`, changes: whether `t` is pushable is open. */
  ghost predicate Opened(rqs: map<nat, CpuRq>, ts: map<nat, RtTask>, c: nat, t: nat) {
    && c in rqs && Others(rqs, ts, c) && t in ts && ts[t].cpu == c
    && ScanOk(rqs[c], c, ts, t) && rqs[c].overloaded == Crowded(rqs[c]) && CurrentOk(rqs[c], c, ts)
  }

  /** Whether `t` is on the pushable list as it should be. */
  ghost predicate Pushed(q: CpuRq, ts: map<nat, RtTask>, c: nat, t: nat) {
    t in q.pushable <==> t in Movable(ts, c) && t != q.current
  }

  lemma Enter(q: CpuRq, c: nat, ts: map<nat, RtTask>, t: nat)
    requires RqOk(q, c, ts)
    ensures ScanOk(q, c, ts, t) && Pushed(q, ts, c, t)
  {
  }

  lemma Leave(q: CpuRq, c: nat, ts: map<nat, RtTask>, t: nat)
    requires ScanOk(q, c, ts, t) && Pushed(q, ts, c, t) && q.overloaded == Crowded(q) && CurrentOk(q, c, ts)
    ensures RqOk(q, c, ts)
  {
  }

  lemma ScanSame(q: CpuRq, r: CpuRq, c: nat, ts: map<nat, RtTask>, t: nat)
    requires ScanOk(q, c, ts, t) && r == q.(overloaded := r.overloaded, online := r.online)
    ensures ScanOk(r, c, ts, t)
  {
  }

  /** A CPU enters and leaves the mask, if overloaded, with its online flag. */
  lemma MaskOnline(rqs: map<nat, CpuRq>, mask: set<nat>, count: int, c: nat)
    requires MaskOk(rqs, mask, count) && c in rqs
    ensures var r := rqs[c := rqs[c].(online := true)];
            if !rqs[c].online && rqs[c].overloaded then MaskOk(r, mask + {c}, count + 1) else MaskOk(r, mask, count)
    ensures var r := rqs[c := rqs[c].(online := false)];
            if rqs[c].online && rqs[c].overloaded then MaskOk(r, mask - {c}, count - 1) else MaskOk(r, mask, count)
  {
  }

  lemma MaskStays(rqs: map<nat, CpuRq>, mask: set<nat>, count: int, c: nat, q: CpuRq)
    requires MaskOk(rqs, mask, count) && c in rqs && q.overloaded == rqs[c].overloaded && q.online == rqs[c].online
    ensures MaskOk(rqs[c := q], mask, count)
  {
  }

  lemma InCpu(rqs: map<nat, CpuRq>, ts: map<nat, RtTask>, c: nat, t: nat)
    requires Opened(rqs, ts, c, t)
    ensures c in rqs && t in ts
  {
  }

  lemma SettleOpened(rqs: map<nat, CpuRq>, ts: map<nat, RtTask>, c: nat, t: nat, q: CpuRq, k: RtTask)
    requires Opened(rqs, ts, c, t) && k.cpu == c && ScanOk(q, c, ts[t := k], t) && q.current == rqs[c].current
    ensures Opened(rqs[c := q.(overloaded := Crowded(q))], ts[t := k], c, t)
  {
    hide ScanOk; hide RqOk; hide Others; hide Queued; hide Movable;
    var r := q.(overloaded := Crowded(q));
    OthersStay(rqs, ts, c, t, k, r);
    ScanSame(q, r, c, ts[t := k], t);
  }

  predicate SameSwitches(q: CpuRq, r: CpuRq) {
    q.overloaded == r.overloaded && q.online == r.online && q.current == r.current
  }

  /** What the run lists become when `t` is linked anew, in front or at the back. */
  function Relinked(queue: seq<seq<nat>>, t: nat, prio: nat, head: bool): seq<seq<nat>>
    requires |queue| == MAX_RT_PRIO && prio < MAX_RT_PRIO
  {
    var l := Without(queue[prio], t);
    queue[prio := if head then [t] + l else l + [t]]
  }

  lemma OpenedShape(rqs: map<nat, CpuRq>, ts: map<nat, RtTask>, c: nat, t: nat)
    requires Opened(rqs, ts, c, t)
    ensures c in rqs && t in ts && ts[t].cpu == c && |rqs[c].queue| == MAX_RT_PRIO && ScanOk(rqs[c], c, ts, t)
    ensures ts[t].prio < MAX_RT_PRIO && !ts[t].onList ==>
            Without(rqs[c].queue[ts[t].prio], t) == rqs[c].queue[ts[t].prio]
  {
    if ts[t].prio < MAX_RT_PRIO && !ts[t].onList {
      var p := ts[t].prio;
      assert SlotOk(rqs[c].queue[p], rqs[c].bitmap[p], c, ts, p);
    }
  }

  lemma SettledStays(ts: map<nat, RtTask>, c: nat, t: nat, k: RtTask)
    requires Settled(ts, c, t)
    ensures Settled(ts[t := k], c, t)
  {
  }

  lemma PushOpened(rqs: map<nat, CpuRq>, ts: map<nat, RtTask>, c: nat, t: nat, q: CpuRq)
    requires Opened(rqs, ts, c, t) && PushRest(q, c, ts, t) && q == rqs[c].(pushable := q.pushable, next := q.next)
    ensures Opened(rqs[c := q], ts, c, t)
  {
    hide RqOk; hide SlotOk; hide PushRest;
    ListsSame(q, rqs[c], c, ts);
    assert Others(rqs[c := q], ts, c);
  }

  ghost predicate AllOk(rqs: map<nat, CpuRq>, ts: map<nat, RtTask>) {
    && (forall d :: d in rqs ==> RqOk(rqs[d], d, ts))
    && (forall t :: t in ts ==> (ts[t].onRq <==> ts[t].onList))
  }

  lemma OpenTask(rqs: map<nat, CpuRq>, ts: map<nat, RtTask>, t: nat)
    requires AllOk(rqs, ts) && TasksOk(rqs, ts) && t in ts
    ensures var c := ts[t].cpu;
            Opened(rqs, ts, c, t) && Pushed(rqs[c], ts, c, t) && Settled(ts, c, t)
  {
    hide ListsOk; hide PrioOk; hide CountsOk; hide PushOk; hide PushRest;
    Enter(rqs[ts[t].cpu], ts[t].cpu, ts, t);
  }

  lemma CloseTask(rqs: map<nat, CpuRq>, ts: map<nat, RtTask>, c: nat, t: nat)
    requires Opened(rqs, ts, c, t) && Pushed(rqs[c], ts, c, t)
    requires forall u :: u in ts ==> (ts[u].onRq <==> ts[u].onList)
    ensures AllOk(rqs, ts)
  {
    hide ListsOk; hide PrioOk; hide CountsOk; hide PushOk; hide PushRest; hide Pushed;
    Leave(rqs[c], c, ts, t);
  }

  lemma ScanAllowed(q: CpuRq, c: nat, ts: map<nat, RtTask>, t: nat, k: RtTask)
    requires ScanOk(q, c, ts, t) && t in ts && !ts[t].onRq && k == ts[t].(allowed := k.allowed)
    ensures ScanOk(q, c, ts[t := k], t)
  {
    hide Queued; hide Movable; hide SlotOk; hide PushRest; hide FirstBit;
    QueuedChange(ts, c, t, k);
    InSets(ts, c, t);
    ListsStay(q, c, ts, t, k);
    PushRestStay(q, c, ts, t, k);
  }

  /** The number of CPUs a task may use can change while it is off the queue. */
  lemma AllowedOpened(rqs: map<nat, CpuRq>, ts: map<nat, RtTask>, c: nat, t: nat, k: RtTask)
    requires Opened(rqs, ts, c, t) && !ts[t].onRq && TasksOk(rqs, ts) && k == ts[t].(allowed := k.allowed)
    ensures Opened(rqs, ts[t := k], c, t) && TasksOk(rqs, ts[t := k])
  {
    hide RqOk; hide ScanOk; hide Queued; hide Movable;
    OthersStay(rqs, ts, c, t, k, rqs[c]);
    assert rqs[c := rqs[c]] == rqs;
    ScanAllowed(rqs[c], c, ts, t, k);
  }

  /** The head of the list of a set bit is queued. */
  lemma HeadQueued(q: CpuRq, c: nat, ts: map<nat, RtTask>, i: nat)
    requires ListsOk(q, c, ts) && i < MAX_RT_PRIO && q.bitmap[i]
    ensures q.queue[i] != [] && q.queue[i][0] in ts && ts[q.queue[i][0]].cpu == c && ts[q.queue[i][0]].onList &&
            ts[q.queue[i][0]].prio == i
  {
    assert SlotOk(q.queue[i], q.bitmap[i], c, ts, i);
    assert q.queue[i][0] in q.queue[i];
    assert Listed(ts, c, i, q.queue[i][0]);
  }

  /** With a task queued some bit is set, so the search stops before the delimiter. */
  lemma SomeBit(q: CpuRq, c: nat, ts: map<nat, RtTask>)
    requires RqOk(q, c, ts) && q.nr != 0
    requires forall t :: t in ts ==> ts[t].prio < MAX_RT_PRIO && (ts[t].onRq <==> ts[t].onList)
    ensures FirstBit(q.bitmap, 0) < MAX_RT_PRIO
  {
    assert Queued(ts, c) != {};
    var t :| t in Queued(ts, c);
    BitSet(q, c, ts, t);
  }

  /** `pick_next_rt_entity`: the head of the best list, and no queued task is better. */
  method PickNext(q: CpuRq, c: nat, ts: map<nat, RtTask>) returns (p: nat)
    requires RqOk(q, c, ts) && q.nr != 0
    requires forall t :: t in ts ==> ts[t].prio < MAX_RT_PRIO && (ts[t].onRq <==> ts[t].onList)
    ensures p in ts && ts[p].cpu == c && ts[p].onRq
    ensures ts[p].prio == q.curr < |q.queue| && q.queue[q.curr] != [] && p == q.queue[q.curr][0]
    ensures forall t :: t in Queued(ts, c) ==> ts[p].prio <= ts[t].prio
  {
    SomeBit(q, c, ts);
    var idx := FirstBit(q.bitmap, 0);
    HeadQueued(q, c, ts, idx);
    p := q.queue[idx][0];
    forall t | t in Queued(ts, c) ensures ts[p].prio <= ts[t].prio {
      BitSet(q, c, ts, t);
    }
  }

  /** `put_prev_task_rt`, as the CPU turns away from its task. */
  method PutPrev(q: CpuRq, c: nat, ts: map<nat, RtTask>) returns (r: CpuRq)
    requires RqOk(q, c, ts) && forall t :: t in ts ==> ts[t].prio < MAX_RT_PRIO
    ensures RqOk(r, c, ts) && r == q.(pushable := r.pushable, next := r.next, current := -1)
  {
    r := q;
    var prev := q.current;
    if prev >= 0 {
      Enter(q, c, ts, prev);
      InSets(ts, c, prev);
      if ts[prev].onRq && ts[prev].allowed > 1 {
        hide ListsOk; hide PrioOk; hide CountsOk;
        r := EnqueuePushable(r, c, ts, prev);
      }
    }
    r := r.(current := -1);
    assert ListsOk(r, c, ts) by { ListsSame(r, q, c, ts); }
  }

  /** The picked task becomes the running one, which is not pushable. */
  method SetNext(q: CpuRq, c: nat, ts: map<nat, RtTask>, p: nat) returns (r: CpuRq)
    requires RqOk(q, c, ts) && q.current == -1 && p in ts && ts[p].cpu == c
    ensures RqOk(r, c, ts) && r == q.(pushable := r.pushable, next := r.next, current := p)
  {
    Enter(q, c, ts, p);
    r := DequeuePushable(q, c, ts, p);
    r := r.(current := p);
    assert ListsOk(r, c, ts) by { ListsSame(r, q, c, ts); }
  }

  /** Unlinking first makes no difference. */
  lemma TwiceUnlinked(rqs: map<nat, CpuRq>, ts: map<nat, RtTask>, d: nat, t: nat, p: nat, head: bool)
    requires AllOk(rqs, ts) && d in rqs && p < MAX_RT_PRIO
    ensures var q := rqs[d].queue;
            |q| == MAX_RT_PRIO && Relinked(q[p := Without(q[p], t)], t, p, head) == Relinked(q, t, p, head)
  {
    hide SlotOk; hide PrioOk; hide CountsOk; hide PushOk;
  }

  lemma MoveInList(q: CpuRq, c: nat, ts: map<nat, RtTask>, t: nat, head: bool)
    requires RqOk(q, c, ts) && t in ts && ts[t].cpu == c && ts[t].onList && ts[t].prio < MAX_RT_PRIO
    ensures |q.queue| == MAX_RT_PRIO && RqOk(q.(queue := Relinked(q.queue, t, ts[t].prio, head)), c, ts)
  {
    var p := ts[t].prio;
    var r := q.(queue := Relinked(q.queue, t, p, head));
    BitSet(q, c, ts, t);
    WithoutDistinct(q.queue[p], t);
    forall i | 0 <= i < MAX_RT_PRIO ensures SlotOk(r.queue[i], r.bitmap[i], c, ts, i) {
      assert SlotOk(q.queue[i], q.bitmap[i], c, ts, i);
    }
  }

  lemma ReplaceRq(rqs: map<nat, CpuRq>, ts: map<nat, RtTask>, c: nat, q: CpuRq)
    requires AllOk(rqs, ts) && TasksOk(rqs, ts) && c in rqs && RqOk(q, c, ts)
    ensures AllOk(rqs[c := q], ts) && TasksOk(rqs[c := q], ts)
  {
    hide RqOk;
  }

  /** A task that is on no queue may change at will, unless it runs and changes its CPU. */
  lemma OffTask(rqs: map<nat, CpuRq>, ts: map<nat, RtTask>, t: nat, k: RtTask)
    requires AllOk(rqs, ts) && TasksOk(rqs, ts) && t in ts && !ts[t].onRq && !k.onRq && !k.onList &&
             k.prio < MAX_RT_PRIO && k.cpu in rqs
    requires forall d :: d in rqs && rqs[d].current == t ==> k.cpu == d
    ensures AllOk(rqs, ts[t := k]) && TasksOk(rqs, ts[t := k])
  {
    hide RqOk;
    forall d | d in rqs ensures RqOk(rqs[d], d, ts[t := k]) {
      OtherCpu(rqs[d], d, ts, t, k);
    }
  }

  lemma OnlineOnly(q: CpuRq, r: CpuRq, c: nat, ts: map<nat, RtTask>)
    requires RqOk(q, c, ts) && r == q.(online := r.online)
    ensures RqOk(r, c, ts)
  {
    ListsSame(r, q, c, ts);
  }

  /** A task can only be the running one of its own CPU. */
  lemma Running(rqs: map<nat, CpuRq>, ts: map<nat, RtTask>, t: nat)
    requires AllOk(rqs, ts) && t in ts
    ensures forall d :: d in rqs && rqs[d].current == t ==> ts[t].cpu == d
  {
    hide ListsOk; hide PrioOk; hide CountsOk; hide PushOk;
  }

  // ----- Counting the lists

  function Lengths(ls: seq<seq<nat>>): nat {
    if ls == [] then 0 else Lengths(ls[..|ls| - 1]) + |ls[|ls| - 1]|
  }

  ghost function Below(ts: map<nat, RtTask>, c: nat, n: nat): set<nat> {
    set t | t in ts && ts[t].cpu == c && ts[t].onList && ts[t].prio < n
  }

  ghost function Elements(l: seq<nat>): set<nat> {
    set x | x in l
  }

  lemma {:induction false} ElementsCount(l: seq<nat>)
    requires Distinct(l)
    ensures |Elements(l)| == |l|
  {
    if l == [] {
      assert Elements(l) == {};
    } else {
      ElementsCount(l[1..]);
      assert l[0] !in l[1..];
      assert Elements(l) == Elements(l[1..]) + {l[0]};
    }
  }

  lemma BelowNext(l: seq<nat>, bit: bool, c: nat, ts: map<nat, RtTask>, n: nat)
    requires SlotOk(l, bit, c, ts, n)
    ensures Below(ts, c, n + 1) == Below(ts, c, n) + Elements(l) && Below(ts, c, n) !! Elements(l)
  {
    forall t ensures t in Elements(l) <==> Listed(ts, c, n, t) {
    }
  }

  lemma {:induction false} BelowCount(q: CpuRq, c: nat, ts: map<nat, RtTask>, n: nat)
    requires ListsOk(q, c, ts) && n <= MAX_RT_PRIO
    ensures |Below(ts, c, n)| == Lengths(q.queue[..n])
  {
    if n == 0 {
      assert Below(ts, c, 0) == {};
    } else {
      hide Below; hide Elements; hide SlotOk;
      BelowCount(q, c, ts, n - 1);
      var l := q.queue[n - 1];
      assert q.queue[..n][..n - 1] == q.queue[..n - 1];
      BelowNext(l, q.bitmap[n - 1], c, ts, n - 1);
      assert Distinct(l) by { SlotDistinct(l, q.bitmap[n - 1], c, ts, n - 1); }
      ElementsCount(l);
    }
  }

  lemma SlotDistinct(l: seq<nat>, bit: bool, c: nat, ts: map<nat, RtTask>, n: nat)
    requires SlotOk(l, bit, c, ts, n)
    ensures Distinct(l)
  {
  }

  /** The number of queued tasks is the number of entries on the lists. */
  lemma CountIsScan(q: CpuRq, c: nat, ts: map<nat, RtTask>)
    requires RqOk(q, c, ts) && forall t :: t in ts ==> ts[t].prio < MAX_RT_PRIO && (ts[t].onRq <==> ts[t].onList)
    ensures q.nr == q.total == Lengths(q.queue)
  {
    BelowCount(q, c, ts, MAX_RT_PRIO);
    assert q.queue[..MAX_RT_PRIO] == q.queue;
    assert Below(ts, c, MAX_RT_PRIO) == Queued(ts, c);
  }

  // ----- Runs

  datatype Op =
    | Wake(t: nat, head: bool)
    | Block(t: nat)
    | Affinity(t: nat, n: nat)
    | Priority(t: nat, prio: nat, head: bool)
    | MoveTo(t: nat, cpu: nat)
    | Yield(t: nat, head: bool)
    | Schedule(cpu: nat, toRt: bool)
    | Online(cpu: nat)
    | Offline(cpu: nat)

  /** All CPUs' queues and all tasks at one moment. */
  datatype Moment = Moment(rqs: map<nat, CpuRq>, tasks: map<nat, RtTask>)

  /** Only queue `c` changes, and its run lists become `queue`. */
  ghost predicate RunLists(s: Moment, r: Moment, c: nat, queue: seq<seq<nat>>) {
    c in s.rqs && c in r.rqs && r.rqs == s.rqs[c := r.rqs[c]] && r.rqs[c].queue == queue
  }

  ghost predicate Sized(s: Moment) {
    && (forall t :: t in s.tasks ==> s.tasks[t].prio < MAX_RT_PRIO && s.tasks[t].cpu in s.rqs)
    && (forall c :: c in s.rqs ==> |s.rqs[c].queue| == MAX_RT_PRIO)
  }

  /** The run lists of the CPU of `t` without it. */
  function Left(s: Moment, t: nat): seq<seq<nat>>
    requires Sized(s) && t in s.tasks
  {
    var k := s.tasks[t];
    s.rqs[k.cpu].queue[k.prio := Without(s.rqs[k.cpu].queue[k.prio], t)]
  }

  /** What each operation does to a task that exists. */
  ghost predicate DidTask(s: Moment, op: Op, r: Moment, t: nat)
    requires Sized(s) && t in s.tasks
  {
    var k := s.tasks[t];
    var queue := s.rqs[k.cpu].queue;
    match op
    case Wake(_, head) =>
      && r.tasks == s.tasks[t := k.(onRq := true, onList := true)]
      && RunLists(s, r, k.cpu, Relinked(queue, t, k.prio, head))
    case Block(_) =>
      r.tasks == s.tasks[t := k.(onRq := false, onList := false)] && RunLists(s, r, k.cpu, Left(s, t))
    case Affinity(_, n) => r.tasks == s.tasks[t := k.(allowed := n)] && RunLists(s, r, k.cpu, queue)
    case Priority(_, prio, head) =>
      if prio >= MAX_RT_PRIO then r == s else
        && r.tasks == s.tasks[t := k.(prio := prio)]
        && RunLists(s, r, k.cpu, if k.onRq && prio != k.prio then Relinked(Left(s, t), t, prio, head) else queue)
    case MoveTo(_, cpu) =>
      if cpu !in s.rqs || s.rqs[k.cpu].current == t then r == s else
        && r.tasks == s.tasks[t := k.(cpu := cpu)] && cpu in r.rqs && k.cpu in r.rqs
        && (if !k.onRq then r.rqs == s.rqs
            else r.rqs[cpu].queue == Relinked(s.rqs[cpu].queue, t, k.prio, false)
                 && (cpu != k.cpu ==> r.rqs[k.cpu].queue == Left(s, t)))
    case Yield(_, head) =>
      r.tasks == s.tasks && RunLists(s, r, k.cpu, if k.onRq then Relinked(queue, t, k.prio, head) else queue)
    case _ => true
  }

  /** What each operation does to a CPU that exists. */
  ghost predicate DidCpu(s: Moment, op: Op, r: Moment, c: nat)
    requires c in s.rqs
  {
    var q := s.rqs[c];
    && r.tasks == s.tasks && RunLists(s, r, c, q.queue)
    && match op
       case Schedule(_, toRt) =>
         if toRt && q.nr != 0
         then q.curr < |q.queue| && q.queue[q.curr] != [] && r.rqs[c].current == q.queue[q.curr][0]
         else r.rqs[c].current == -1
       case Online(_) => r.rqs[c] == q.(online := true)
       case Offline(_) => r.rqs[c] == q.(online := false)
       case _ => true
  }

  ghost predicate Did(s: Moment, op: Op, r: Moment) {
    && Sized(s)
    && if op.Schedule? || op.Online? || op.Offline?
       then (if op.cpu in s.rqs then DidCpu(s, op, r, op.cpu) else r == s)
       else (if op.t in s.tasks then DidTask(s, op, r, op.t) else r == s)
  }

  /** `trace` shows the moments before the operations and after each. */
  ghost predicate Shows(trace: seq<Moment>, ops: seq<Op>) {
    |trace| == |ops| + 1 && forall i :: 0 <= i < |ops| ==> Did(trace[i], ops[i], trace[i + 1])
  }

  lemma ShowsNext(trace: seq<Moment>, ops: seq<Op>, op: Op, r: Moment)
    requires Shows(trace, ops) && Did(trace[|ops|], op, r)
    ensures Shows(trace + [r], ops + [op])
  {
    hide Did;
  }

  /** The empty queue of `init_rt_rq`. */
  function EmptyRq(): CpuRq {
    CpuRq(seq(MAX_RT_PRIO, _ => []), seq(MAX_RT_PRIO + 1, i => i == MAX_RT_PRIO), 0, MAX_RT_PRIO, MAX_RT_PRIO,
          0, 0, false, [], -1, false)
  }

  lemma EmptyOk(c: nat, ts: map<nat, RtTask>)
    requires forall t :: t in ts ==> !ts[t].onRq && !ts[t].onList
    ensures RqOk(EmptyRq(), c, ts)
  {
    var q := EmptyRq();
    assert Queued(ts, c) == {} && Movable(ts, c) == {};
    forall i | 0 <= i < MAX_RT_PRIO ensures SlotOk(q.queue[i], q.bitmap[i], c, ts, i) {
    }
  }

  lemma PairOnCpu(rqs: map<nat, CpuRq>, ts: map<nat, RtTask>, t: nat, n: nat)
    requires AllOk(rqs, ts) && TasksOk(rqs, ts) && t in ts
    ensures var l, ts' := rqs[ts[t].cpu].pushable, ts[t := ts[t].(allowed := n)];
            && Repush(Without(l, t), ts', t) == Repush(l, ts', t)
            && (t in l ==> ts[t].onRq && rqs[ts[t].cpu].current != t)
            && (t in l ==> (Repush(l, ts', t) == l <==> LastOfEquals(l, ts, t)))
  {
    var c := ts[t].cpu;
    var q := rqs[c];
    hide ListsOk; hide PrioOk; hide CountsOk; hide LastOfEquals;
    if t in q.pushable {
      PairKeepsPushable(q, c, ts, t, n);
    }
  }

  lemma OffNotPushable(rqs: map<nat, CpuRq>, ts: map<nat, RtTask>, t: nat)
    requires AllOk(rqs, ts) && TasksOk(rqs, ts) && t in ts
    ensures !ts[t].onRq ==> t !in rqs[ts[t].cpu].pushable
  {
    hide ListsOk; hide PrioOk; hide CountsOk;
  }

  lemma NotListed(s: seq<nat>, current: int, ts: map<nat, RtTask>, t: nat)
    requires t in ts && !ts[t].onRq && t !in s
    ensures Listing(s, current, ts, t) == s
  {
  }

  class RtDomain {
    var rqs: map<nat, CpuRq>
    var tasks: map<nat, RtTask>
    var rtoMask: set<nat>
    var rtoCount: int

    ghost predicate Shape()
      reads this
    {
      MaskOk(rqs, rtoMask, rtoCount) && TasksOk(rqs, tasks)
    }

    ghost predicate Valid()
      reads this
    {
      Shape() && AllOk(rqs, tasks)
    }

    /** Offline CPUs with empty queues. */
    constructor (cpus: set<nat>, ts: map<nat, RtTask>)
      requires forall t :: t in ts ==> ts[t].prio < MAX_RT_PRIO && ts[t].cpu in cpus && !ts[t].onRq && !ts[t].onList
      ensures Valid() && rqs.Keys == cpus && tasks == ts && forall d :: d in rqs ==> rqs[d] == EmptyRq()
    {
      rqs, tasks := map d | d in cpus :: EmptyRq(), ts;
      rtoMask, rtoCount := {}, 0;
      new;
      hide RqOk;
      forall d | d in rqs ensures RqOk(rqs[d], d, tasks) {
        EmptyOk(d, tasks);
      }
    }

    /** `update_rt_migration` with `rt_set_overload` and `rt_clear_overload`. */
    method UpdateMigration(c: nat)
      requires c in rqs && MaskOk(rqs, rtoMask, rtoCount)
      modifies this`rqs, this`rtoMask, this`rtoCount
      ensures MaskOk(rqs, rtoMask, rtoCount)
      ensures rqs == old(rqs)[c := old(rqs)[c].(overloaded := Crowded(old(rqs)[c]))]
    {
      var q := rqs[c];
      if q.migratory != 0 && q.total > 1 {
        if !q.overloaded {
          if q.online {
            rtoMask, rtoCount := rtoMask + {c}, rtoCount + 1;
          }
          rqs := rqs[c := q.(overloaded := true)];
        }
      } else if q.overloaded {
        if q.online {
          rtoMask, rtoCount := rtoMask - {c}, rtoCount - 1;
        }
        rqs := rqs[c := q.(overloaded := false)];
      }
    }

    /** Put a changed task and the changed queue of its CPU in place. */
    method Settle(c: nat, t: nat, q: CpuRq, k: RtTask)
      requires Shape() && Opened(rqs, tasks, c, t) && k.cpu == c && k.prio < MAX_RT_PRIO
      requires ScanOk(q, c, tasks[t := k], t) && SameSwitches(q, rqs[c])
      modifies this
      ensures Shape() && Opened(rqs, tasks, c, t) && tasks == old(tasks)[t := k]
      ensures rqs == old(rqs)[c := q.(overloaded := Crowded(q))]
    {
      hide Opened; hide ScanOk; hide MaskOk;
      assert c in rqs && t in tasks by { InCpu(rqs, tasks, c, t); }
      SettleOpened(rqs, tasks, c, t, q, k);
      MaskStays(rqs, rtoMask, rtoCount, c, q);
      rqs, tasks := rqs[c := q], tasks[t := k];
      UpdateMigration(c);
      assert rqs == old(rqs)[c := q.(overloaded := Crowded(q))];
    }

    /** `dequeue_rt_stack` for a task that is its own stack. */
    method DequeueStack(c: nat, t: nat, f: Flags)
      requires Shape() && Opened(rqs, tasks, c, t) && (tasks[t].onRq ==> tasks[t].onList)
      modifies this
      ensures Shape() && Opened(rqs, tasks, c, t)
      ensures var k := old(tasks)[t];
              tasks == old(tasks)[t := k.(onRq := false, onList := if k.onRq then !MoveEntity(f) else k.onList)]
      ensures rqs == old(rqs)[c := rqs[c]] && rqs[c].pushable == old(rqs)[c].pushable &&
              rqs[c].current == old(rqs)[c].current
      ensures rqs[c].online == old(rqs)[c].online
      ensures |rqs[c].queue| == MAX_RT_PRIO == |old(rqs)[c].queue|
      ensures rqs[c].queue == if old(tasks)[t].onRq &&
              MoveEntity(f) then old(rqs)[c].queue[old(tasks)[t].prio := Without(old(rqs)[c].queue[old(tasks)[t].prio],
                  t)]
                              else old(rqs)[c].queue
    {
      OpenedShape(rqs, tasks, c, t);
      hide Opened; hide ScanOk; hide MaskOk;
      if tasks[t].onRq {
        var q := DequeueEntity(rqs[c], c, tasks, t, f);
        Settle(c, t, q, tasks[t].(onRq := false, onList := !MoveEntity(f)));
      } else {
        assert tasks == tasks[t := tasks[t].(onRq := false)];
        assert rqs == rqs[c := rqs[c]];
      }
      OpenedShape(rqs, tasks, c, t);
    }

    /** `enqueue_rt_entity`. The flags match those of the last dequeue. */
    method EnqueueStack(c: nat, t: nat, f: Flags)
      requires Shape() && Opened(rqs, tasks, c, t) && Settled(tasks, c, t) && (tasks[t].onRq ==> tasks[t].onList)
      requires !tasks[t].onRq ==> (tasks[t].onList <==> !MoveEntity(f))
      modifies this
      ensures Shape() && Opened(rqs, tasks, c, t)
      ensures tasks == old(tasks)[t := old(tasks)[t].(onRq := true, onList := true)]
      ensures rqs == old(rqs)[c := rqs[c]] && rqs[c].current == old(rqs)[c].current &&
              rqs[c].online == old(rqs)[c].online
      ensures rqs[c].pushable == old(rqs)[c].pushable && |old(rqs)[c].queue| == MAX_RT_PRIO
      ensures rqs[c].queue == if MoveEntity(f) then Relinked(old(rqs)[c].queue, t, tasks[t].prio, f.head)
              else old(rqs)[c].queue
    {
      hide Opened; hide ScanOk; hide MaskOk; hide Settled; hide Without;
      OpenedShape(rqs, tasks, c, t);
      ghost var before := rqs[c].queue;
      DequeueStack(c, t, f);
      SettledStays(old(tasks), c, t, tasks[t]);
      OpenedShape(rqs, tasks, c, t);
      assert MoveEntity(f) ==> rqs[c].queue == before[tasks[t].prio := Without(before[tasks[t].prio], t)];
      var q := EnqueueEntity(rqs[c], c, tasks, t, f);
      Settle(c, t, q, tasks[t].(onRq := true, onList := true));
    }

    /** `enqueue_task_rt`. */
    method EnqueueTask(c: nat, t: nat, f: Flags)
      requires Shape() && Opened(rqs, tasks, c, t) && Settled(tasks, c, t) && (tasks[t].onRq ==> tasks[t].onList)
      requires !tasks[t].onRq ==> (tasks[t].onList <==> !MoveEntity(f))
      requires t in rqs[c].pushable ==> tasks[t].allowed > 1 && t != rqs[c].current
      modifies this
      ensures Shape() && Opened(rqs, tasks, c, t) && Pushed(rqs[c], tasks, c, t)
      ensures rqs[c].pushable ==
              if rqs[c].current != t && tasks[t].allowed > 1 then Repush(old(rqs)[c].pushable, tasks, t)
              else old(rqs)[c].pushable
      ensures tasks == old(tasks)[t := old(tasks)[t].(onRq := true, onList := true)]
      ensures rqs == old(rqs)[c := rqs[c]] && rqs[c].current == old(rqs)[c].current &&
              rqs[c].online == old(rqs)[c].online
      ensures |old(rqs)[c].queue| == MAX_RT_PRIO
      ensures rqs[c].queue == if MoveEntity(f) then Relinked(old(rqs)[c].queue, t, tasks[t].prio, f.head)
              else old(rqs)[c].queue
    {
      hide Opened; hide ScanOk; hide MaskOk; hide Settled; hide Relinked; hide Movable;
      OpenedShape(rqs, tasks, c, t);
      EnqueueStack(c, t, f);
      OpenedShape(rqs, tasks, c, t);
      InSets(tasks, c, t);
      if rqs[c].current != t && tasks[t].allowed > 1 {
        Push(c, t);
      }
    }

    /** `enqueue_pushable_task` in place. */
    method Push(c: nat, t: nat)
      requires Shape() && Opened(rqs, tasks, c, t)
      modifies this`rqs
      ensures Shape() && Opened(rqs, tasks, c, t) && t in rqs[c].pushable
      ensures rqs[c].pushable == Repush(old(rqs)[c].pushable, tasks, t)
      ensures rqs == old(rqs)[c := old(rqs)[c].(pushable := rqs[c].pushable, next := rqs[c].next)]
    {
      OpenedShape(rqs, tasks, c, t);
      hide Opened; hide MaskOk; hide ListsOk; hide PrioOk; hide CountsOk; hide PushRest;
      var q := EnqueuePushable(rqs[c], c, tasks, t);
      PushOpened(rqs, tasks, c, t, q);
      MaskStays(rqs, rtoMask, rtoCount, c, q);
      rqs := rqs[c := q];
    }

    /** `dequeue_pushable_task` in place. */
    method Unpush(c: nat, t: nat)
      requires Shape() && Opened(rqs, tasks, c, t)
      modifies this`rqs
      ensures Shape() && Opened(rqs, tasks, c, t) && t !in rqs[c].pushable
      ensures rqs[c].pushable == Without(old(rqs)[c].pushable, t)
      ensures rqs == old(rqs)[c := old(rqs)[c].(pushable := rqs[c].pushable, next := rqs[c].next)]
    {
      OpenedShape(rqs, tasks, c, t);
      hide Opened; hide MaskOk; hide ListsOk; hide PrioOk; hide CountsOk; hide PushRest;
      var q := DequeuePushable(rqs[c], c, tasks, t);
      PushOpened(rqs, tasks, c, t, q);
      MaskStays(rqs, rtoMask, rtoCount, c, q);
      rqs := rqs[c := q];
    }

    /** `dequeue_task_rt`. */
    method DequeueTask(c: nat, t: nat, f: Flags)
      requires Shape() && Opened(rqs, tasks, c, t) && (tasks[t].onRq ==> tasks[t].onList)
      modifies this
      ensures Shape() && Opened(rqs, tasks, c, t) && rqs[c].pushable == Without(old(rqs)[c].pushable, t)
      ensures var k := old(tasks)[t];
              tasks == old(tasks)[t := k.(onRq := false, onList := if k.onRq then !MoveEntity(f) else k.onList)]
      ensures rqs == old(rqs)[c := rqs[c]] && rqs[c].current == old(rqs)[c].current &&
              rqs[c].online == old(rqs)[c].online
      ensures |rqs[c].queue| == MAX_RT_PRIO == |old(rqs)[c].queue|
      ensures rqs[c].queue == if old(tasks)[t].onRq &&
              MoveEntity(f) then old(rqs)[c].queue[old(tasks)[t].prio := Without(old(rqs)[c].queue[old(tasks)[t].prio],
                  t)]
                              else old(rqs)[c].queue
    {
      hide Opened; hide ScanOk; hide MaskOk;
      OpenedShape(rqs, tasks, c, t);
      DequeueStack(c, t, f);
      Unpush(c, t);
    }

    /** A task becomes runnable on its CPU. */
    method Activate(t: nat, head: bool)
      requires Valid() && t in tasks
      modifies this
      ensures Valid() && tasks == old(tasks)[t := old(tasks)[t].(onRq := true, onList := true)]
      ensures var c := tasks[t].cpu;
              && c in rqs && rqs == old(rqs)[c := rqs[c]] && rqs[c].current == old(rqs)[c].current &&
                 |old(rqs)[c].queue| == MAX_RT_PRIO
              && rqs[c].queue == Relinked(old(rqs)[c].queue, t, tasks[t].prio, head)
              && rqs[c].pushable == Listing(old(rqs)[c].pushable, rqs[c].current, tasks, t)
    {
      hide Opened; hide MaskOk; hide Relinked; hide RqOk; hide Settled; hide Movable; hide Repush;
      var c := tasks[t].cpu;
      OpenTask(rqs, tasks, t);
      OpenedShape(rqs, tasks, c, t);
      InSets(tasks, c, t);
      EnqueueTask(c, t, Flags(false, false, head));
      CloseTask(rqs, tasks, c, t);
    }

    /** A task stops being runnable. */
    method Deactivate(t: nat)
      requires Valid() && t in tasks
      modifies this
      ensures Valid() && tasks == old(tasks)[t := old(tasks)[t].(onRq := false, onList := false)]
      ensures var c := tasks[t].cpu;
              && c in rqs && rqs == old(rqs)[c := rqs[c]] && rqs[c].current == old(rqs)[c].current &&
                 |old(rqs)[c].queue| == MAX_RT_PRIO
              && rqs[c].queue == old(rqs)[c].queue[tasks[t].prio := Without(old(rqs)[c].queue[tasks[t].prio], t)]
              && rqs[c].pushable == Without(old(rqs)[c].pushable, t)
    {
      hide Opened; hide MaskOk; hide RqOk; hide Settled; hide Movable; hide Without;
      var c := tasks[t].cpu;
      OpenTask(rqs, tasks, t);
      OpenedShape(rqs, tasks, c, t);
      DequeueTask(c, t, Flags(false, false, false));
      InSets(tasks, c, t);
      CloseTask(rqs, tasks, c, t);
    }

    /** SAVE a queued task and change how many CPUs it may use. */
    method SaveAllowed(c: nat, t: nat, n: nat)
      requires Valid() && t in tasks && c == tasks[t].cpu
      modifies this
      ensures Shape() && Opened(rqs, tasks, c, t) && Settled(tasks, c, t)
      ensures tasks == old(tasks)[t := old(tasks)[t].(onRq := false, allowed := n)]
      ensures rqs == old(rqs)[c := rqs[c]] && rqs[c].queue == old(rqs)[c].queue && rqs[c].current == old(rqs)[c].current
      ensures rqs[c].pushable == Without(old(rqs)[c].pushable, t)
    {
      hide Opened; hide MaskOk; hide RqOk; hide Settled; hide Movable; hide Without;
      OpenTask(rqs, tasks, t);
      OpenedShape(rqs, tasks, c, t);
      ghost var ts := tasks;
      if tasks[t].onRq {
        DequeueTask(c, t, Flags(true, false, false));
      } else {
        InSets(tasks, c, t);
        assert Without(rqs[c].pushable, t) == rqs[c].pushable;
        assert rqs == rqs[c := rqs[c]];
      }
      AllowedOpened(rqs, tasks, c, t, tasks[t].(allowed := n));
      SettledStays(ts, c, t, tasks[t].(allowed := n));
      tasks := tasks[t := tasks[t].(allowed := n)];
      assert tasks == ts[t := tasks[t]];
    }

    /** `do_set_cpus_allowed`: SAVE, change, RESTORE. No run list changes, on any CPU; on the pushable list
        the task goes behind its equals. With the old `n` it is the bare pair. */
    method SetCpusAllowed(t: nat, n: nat)
      requires Valid() && t in tasks
      modifies this
      ensures Valid() && tasks == old(tasks)[t := old(tasks)[t].(allowed := n)]
      ensures var c := tasks[t].cpu;
              c in rqs && rqs == old(rqs)[c := rqs[c]] && rqs[c].queue == old(rqs)[c].queue &&
                  rqs[c].current == old(rqs)[c].current
      ensures var c := tasks[t].cpu;
              c in rqs && rqs[c].pushable == Listing(old(rqs)[c].pushable, rqs[c].current, tasks, t)
      ensures var c := tasks[t].cpu;
              c in rqs && (t in old(rqs)[c].pushable && n > 1 ==>
                             (rqs[c].pushable == old(rqs)[c].pushable <==>
                                 LastOfEquals(old(rqs)[c].pushable, old(tasks), t)))
    {
      hide Opened; hide MaskOk; hide RqOk; hide Settled; hide Movable; hide Without; hide Relinked; hide Repush;
      hide LastOfEquals;
      var c := tasks[t].cpu;
      ghost var ts := tasks;
      PairOnCpu(rqs, ts, t, n);
      var queued, running := tasks[t].onRq, rqs[c].current == t;
      SaveAllowed(c, t, n);
      OpenedShape(rqs, tasks, c, t);
      if queued {
        EnqueueTask(c, t, Flags(true, false, false));
        OpenedShape(rqs, tasks, c, t);
      }
      if running {
        Unpush(c, t);
      }
      assert tasks == ts[t := ts[t].(allowed := n)];
      InSets(tasks, c, t);
      CloseTask(rqs, tasks, c, t);
    }

    /** `rt_mutex_setprio` within the class: SAVE and MOVE, but without MOVE for the same priority. */
    method SetPrio(t: nat, prio: nat, head: bool)
      requires Valid() && t in tasks && prio < MAX_RT_PRIO
      modifies this
      ensures Valid() && tasks == old(tasks)[t := old(tasks)[t].(prio := prio)] && rqs.Keys == old(rqs.Keys)
      ensures var c := tasks[t].cpu;
              && c in rqs && rqs == old(rqs)[c := rqs[c]]
              && (!tasks[t].onRq || prio == old(tasks)[t].prio ==> rqs[c].queue == old(rqs)[c].queue)
              && rqs[c].pushable == Listing(old(rqs)[c].pushable, rqs[c].current, tasks, t)
      ensures tasks[t].onRq && prio != old(tasks)[t].prio ==>
                var c, p := tasks[t].cpu, old(tasks)[t].prio;
                && c in rqs && |old(rqs)[c].queue| == MAX_RT_PRIO && p < MAX_RT_PRIO
                && rqs[c].queue == Relinked(old(rqs)[c].queue[p := Without(old(rqs)[c].queue[p], t)], t, prio, head)
    {
      hide MaskOk; hide RqOk; hide Relinked; hide Without; hide Listing;
      ghost var q0, c := rqs[tasks[t].cpu], tasks[t].cpu;
      OffNotPushable(rqs, tasks, t);
      if tasks[t].prio == prio {
        SetCpusAllowed(t, tasks[t].allowed);
        return;
      }
      var queued := tasks[t].onRq;
      Running(rqs, tasks, t);
      if queued {
        Deactivate(t);
        Running(rqs, tasks, t);
      }
      OffTask(rqs, tasks, t, tasks[t].(prio := prio));
      tasks := tasks[t := tasks[t].(prio := prio)];
      if queued {
        Activate(t, head);
        ListingTwice(q0.pushable, rqs[c].current, tasks, t);
      } else {
        NotListed(q0.pushable, rqs[c].current, tasks, t);
      }
    }

    /** A task that does not run moves to CPU `d`. */
    method Migrate(t: nat, d: nat)
      requires Valid() && t in tasks && d in rqs && rqs[tasks[t].cpu].current != t
      modifies this
      ensures Valid() && tasks == old(tasks)[t := old(tasks)[t].(cpu := d)] && rqs.Keys == old(rqs.Keys)
      ensures !tasks[t].onRq ==> rqs == old(rqs)
      ensures tasks[t].onRq ==>
                var c, p := old(tasks)[t].cpu, tasks[t].prio;
                && c in rqs && rqs == old(rqs)[c := rqs[c]][d := rqs[d]] && p < MAX_RT_PRIO
                && |old(rqs)[c].queue| == |old(rqs)[d].queue| == MAX_RT_PRIO
                && rqs[d].queue == Relinked(old(rqs)[d].queue, t, p, false)
                && (c != d ==> rqs[c].queue == old(rqs)[c].queue[p := Without(old(rqs)[c].queue[p], t)])
    {
      hide MaskOk; hide RqOk; hide Without; hide Relinked;
      ghost var q, c, p := rqs[d].queue, tasks[t].cpu, tasks[t].prio;
      TwiceUnlinked(rqs, tasks, d, t, p, false);
      var queued := tasks[t].onRq;
      if queued {
        Deactivate(t);
      }
      Running(rqs, tasks, t);
      OffTask(rqs, tasks, t, tasks[t].(cpu := d));
      tasks := tasks[t := tasks[t].(cpu := d)];
      if queued {
        Activate(t, false);
      }
    }

    /** `requeue_task_rt`. */
    method Requeue(t: nat, head: bool)
      requires Valid() && t in tasks
      modifies this`rqs
      ensures Valid()
      ensures var c := tasks[t].cpu;
              && c in rqs && rqs == old(rqs)[c := rqs[c]] && |old(rqs)[c].queue| == MAX_RT_PRIO
              && rqs[c] == if tasks[t].onRq then old(rqs)[c].(queue := Relinked(old(rqs)[c].queue, t, tasks[t].prio,
                 head)) else old(rqs)[c]
    {
      hide MaskOk; hide Relinked; hide PrioOk; hide CountsOk; hide PushOk; hide SlotOk;
      var c := tasks[t].cpu;
      if tasks[t].onRq {
        MoveInList(rqs[c], c, tasks, t, head);
        var q := rqs[c].(queue := Relinked(rqs[c].queue, t, tasks[t].prio, head));
        ReplaceRq(rqs, tasks, c, q);
        MaskStays(rqs, rtoMask, rtoCount, c, q);
        rqs := rqs[c := q];
      } else {
        assert rqs == rqs[c := rqs[c]];
      }
    }

    /** CPU `c` switches to its best real-time task, or to a task of another class. */
    method Switch(c: nat, toRt: bool)
      requires Valid() && c in rqs
      modifies this`rqs
      ensures Valid() && c in rqs && rqs == old(rqs)[c := old(rqs)[c].(pushable := rqs[c].pushable,
              next := rqs[c].next, current := rqs[c].current)]
      ensures toRt && rqs[c].nr != 0 ==>
                var p := rqs[c].current;
                && p in tasks && tasks[p].cpu == c && tasks[p].onRq && tasks[p].prio == rqs[c].curr < |rqs[c].queue|
                && rqs[c].queue[rqs[c].curr] != [] && p == rqs[c].queue[rqs[c].curr][0]
                && forall t :: t in Queued(tasks, c) ==> tasks[p].prio <= tasks[t].prio
      ensures !(toRt && rqs[c].nr != 0) ==> rqs[c].current == -1
    {
      hide MaskOk; hide RqOk; hide Queued;
      var q := PutPrev(rqs[c], c, tasks);
      if toRt && q.nr != 0 {
        var p := PickNext(q, c, tasks);
        q := SetNext(q, c, tasks, p);
      }
      ReplaceRq(rqs, tasks, c, q);
      MaskStays(rqs, rtoMask, rtoCount, c, q);
      rqs := rqs[c := q];
    }

    /** `set_rq_online` with `rq_online_rt`. */
    method SetOnline(c: nat)
      requires Valid() && c in rqs
      modifies this`rqs, this`rtoMask, this`rtoCount
      ensures Valid() && rqs == old(rqs)[c := old(rqs)[c].(online := true)]
    {
      hide RqOk; hide MaskOk;
      var q := rqs[c].(online := true);
      OnlineOnly(rqs[c], q, c, tasks);
      ReplaceRq(rqs, tasks, c, q);
      MaskOnline(rqs, rtoMask, rtoCount, c);
      if !rqs[c].online {
        if q.overloaded {
          rtoMask, rtoCount := rtoMask + {c}, rtoCount + 1;
        }
      }
      rqs := rqs[c := q];
    }

    /** `set_rq_offline` with `rq_offline_rt`. */
    method SetOffline(c: nat)
      requires Valid() && c in rqs
      modifies this`rqs, this`rtoMask, this`rtoCount
      ensures Valid() && rqs == old(rqs)[c := old(rqs)[c].(online := false)]
    {
      hide RqOk; hide MaskOk;
      var q := rqs[c].(online := false);
      OnlineOnly(rqs[c], q, c, tasks);
      ReplaceRq(rqs, tasks, c, q);
      MaskOnline(rqs, rtoMask, rtoCount, c);
      if rqs[c].online {
        if q.overloaded {
          rtoMask, rtoCount := rtoMask - {c}, rtoCount - 1;
        }
      }
      rqs := rqs[c := q];
    }

    ghost function View(): Moment
      reads this
    {
      Moment(rqs, tasks)
    }

    lemma ViewSized()
      requires Valid()
      ensures Sized(View())
    {
      forall c | c in rqs ensures |rqs[c].queue| == MAX_RT_PRIO {
        assert RqOk(rqs[c], c, tasks);
      }
    }

    /** One operation, which does nothing for a task or CPU that does not exist. */
    method Do(op: Op)
      requires Valid()
      modifies this
      ensures Valid() && rqs.Keys == old(rqs.Keys) && tasks.Keys == old(tasks.Keys) && Did(old(View()), op, View())
    {
      hide AllOk; hide MaskOk; hide Relinked; hide Queued;
      ViewSized();
      match op
      case Wake(t, head) => if t in tasks { Activate(t, head); }
      case Block(t) => if t in tasks { Deactivate(t); }
      case Affinity(t, n) => if t in tasks { SetCpusAllowed(t, n); }
      case Priority(t, prio, head) => if t in tasks && prio < MAX_RT_PRIO { SetPrio(t, prio, head); }
      case MoveTo(t, cpu) => if t in tasks && cpu in rqs && rqs[tasks[t].cpu].current != t { Migrate(t, cpu); }
      case Yield(t, head) => if t in tasks { Requeue(t, head); }
      case Schedule(cpu, toRt) => if cpu in rqs { Switch(cpu, toRt); }
      case Online(cpu) => if cpu in rqs { SetOnline(cpu); }
      case Offline(cpu) => if cpu in rqs { SetOffline(cpu); }
    }

    /** Any run of operations keeps every cache exact, and each does to lists and tasks what it should:
        `trace` is the run, operation by operation. */
    method Perform(ops: seq<Op>) returns (ghost trace: seq<Moment>)
      requires Valid()
      modifies this
      ensures Valid() && rqs.Keys == old(rqs.Keys) && tasks.Keys == old(tasks.Keys)
      ensures Shows(trace, ops) && trace[0] == old(View()) && trace[|ops|] == View()
    {
      hide AllOk; hide MaskOk; hide TasksOk; hide Did;
      trace := [View()];
      for i := 0 to |ops|
        invariant Valid() && rqs.Keys == old(rqs.Keys) && tasks.Keys == old(tasks.Keys)
        invariant Shows(trace, ops[..i]) && trace[0] == old(View()) && trace[i] == View()
      {
        Do(ops[i]);
        assert ops[..i + 1] == ops[..i] + [ops[i]];
        ShowsNext(trace, ops[..i], ops[i], View());
        trace := trace + [View()];
      }
      assert ops[..|ops|] == ops;
    }
  }

  lemma ListedAgain(s: seq<nat>, current: int, ts: map<nat, RtTask>, t: nat, queue: seq<seq<nat>>, prio: nat)
    requires t in ts && ts[t].onRq && current == -1 && ts[t].allowed > 1 && |queue| == MAX_RT_PRIO && prio < MAX_RT_PRIO
    requires t !in queue[prio]
    ensures Listing(s, current, ts, t) == Repush(s, ts, t)
    ensures |Relinked(queue, t, prio, false)| == MAX_RT_PRIO &&
            Relinked(queue, t, prio, false)[prio] == queue[prio] + [t]
  {
  }

  /** On one CPU, with two tasks of equal priority waiting, a SAVE/RESTORE pair on the first swaps them on the
      pushable list and leaves the run list alone. */
  method PairSwaps() returns (before: seq<nat>, after: seq<nat>, queue: seq<nat>)
    ensures before == [1, 2] && after == [2, 1] && queue == [1, 2]
  {
    hide AllOk; hide MaskOk; hide TasksOk; hide Repush; hide LastOfEquals; hide Listing; hide Relinked;
    var task := RtTask(50, 2, 0, false, false);
    var d := new RtDomain({0}, map[1 := task, 2 := task]);
    ghost var q := d.rqs[0].queue;
    assert d.rqs[0].pushable == [] && |q| == MAX_RT_PRIO && q[50] == [] && d.rqs[0].current == -1;
    d.Activate(1, false);
    RepushSwaps(d.tasks, 1, 2);
    ListedAgain([], -1, d.tasks, 1, q, 50);
    q := d.rqs[0].queue;
    d.Activate(2, false);
    RepushSwaps(d.tasks, 1, 2);
    ListedAgain([1], -1, d.tasks, 2, q, 50);
    before := d.rqs[0].pushable;
    d.SetCpusAllowed(1, 2);
    RepushSwaps(d.tasks, 1, 2);
    ListedAgain([1, 2], -1, d.tasks, 1, seq(MAX_RT_PRIO, _ => []), 50);
    after, queue := d.rqs[0].pushable, d.rqs[0].queue[50];
  }
}
