/** The TS scheduling class: forty feedback levels with demotion on expiry and a boost on wake-up. */
module TsQueues {
  import opened Lists

  const MAX_TS_PRIO := 40

  /** `get_new_prio`; `sleep` distinguishes a wake-up from an expiry. */
  function GetNewPrio(prio: int, sleep: bool): (r: int)
    ensures 100 <= r <= 139
    ensures 100 <= prio <= 139 && sleep ==> r <= 109 && (r < prio || r == prio == 100)
    ensures !(100 <= prio <= 139) ==> r == 139
    ensures 100 <= prio <= 139 && !sleep ==> r == if prio + 10 > 139 then 139 else prio + 10
  {
    var level := 139 - prio;
    if level < 0 || level > 39 then 139
    else
      139 - (if !sleep then
               (if level < 10 then 0 else level - 10)
             else if level < 10 then 30
             else if level < 20 then 31
             else if level < 25 then level + 12
             else if level < 27 then level + 11
             else if level == 27 then 37
             else if level < 30 then 38
             else 39)
  }

  /** Some task is raised to `r`. */
  ghost predicate RaisedTo(r: int) {
    exists x :: 100 <= x <= 139 && GetNewPrio(x, true) == r
  }

  /** A wake-up never changes the order of two tasks, and the ten levels it raises to are all in use. */
  lemma WakeLevels(p: int, q: int)
    requires 100 <= p <= q <= 139
    ensures GetNewPrio(p, true) <= GetNewPrio(q, true)
    ensures forall r :: 100 <= r <= 109 ==> RaisedTo(r)
  {
    var from := [100, 110, 112, 114, 116, 117, 118, 119, 120, 139];
    forall r | 100 <= r <= 109 ensures RaisedTo(r) {
      assert GetNewPrio(from[r - 100], true) == r;
    }
  }

  /** `get_num_ticks`: four ticks more for every ten levels down. */
  function GetNumTicks(prio: int): (r: int)
    ensures 100 <= prio <= 139 ==> r in {4, 8, 12, 16} && 10 * (r - 4) <= 4 * (prio - 100) < 10 * r
    ensures !(100 <= prio <= 139) ==> r == 0
  {
    var level := 139 - prio;
    if level < 0 then 0
    else if level < 10 then 16
    else if level < 20 then 12
    else if level < 30 then 8
    else if level < 40 then 4
    else 0
  }

  /** `queue` lists tasks by level; `prio` and `slice` cover every TS task, queued or not. */
  datatype Ts = Ts(queue: seq<seq<nat>>, prio: map<nat, int>, slice: map<nat, int>)

  // ----- Safety

  ghost predicate OnQueue(q: seq<seq<nat>>, t: nat) {
    exists i :: 0 <= i < |q| && t in q[i]
  }

  /** No task is linked twice, in one list or in two. */
  ghost predicate Once(q: seq<seq<nat>>) {
    && (forall i :: 0 <= i < |q| ==> Distinct(q[i]))
    && (forall i, j, t :: 0 <= i < j < |q| && t in q[i] ==> t !in q[j])
  }

  ghost predicate Safe(s: Ts) {
    && |s.queue| == MAX_TS_PRIO && Once(s.queue) && s.prio.Keys == s.slice.Keys
    && (forall t :: t in s.prio ==> 100 <= s.prio[t] <= 139 && 1 <= s.slice[t] <= 16)
    && (forall i, t :: 0 <= i < MAX_TS_PRIO && t in s.queue[i] ==> t in s.prio && i <= 139 - s.prio[t])
  }

  /** `list_add_tail` and `list_move_tail`. */
  function AddTail(q: seq<seq<nat>>, t: nat, i: int): (r: seq<seq<nat>>)
    requires 0 <= i < |q|
    ensures |r| == |q|
  {
    q[i := q[i] + [t]]
  }

  function MoveTail(q: seq<seq<nat>>, t: nat, i: int): (r: seq<seq<nat>>)
    requires 0 <= i < |q|
    ensures |r| == |q|
  {
    AddTail(Unlink(q, t), t, i)
  }

  lemma UnlinkOnce(q: seq<seq<nat>>, t: nat)
    requires Once(q)
    ensures Once(Unlink(q, t)) && !OnQueue(Unlink(q, t), t)
  {
    forall i | 0 <= i < |q| ensures Distinct(Unlink(q, t)[i]) {
      WithoutDistinct(q[i], t);
    }
  }

  lemma AddTailOnce(q: seq<seq<nat>>, t: nat, i: int)
    requires Once(q) && 0 <= i < |q| && !OnQueue(q, t)
    ensures Once(AddTail(q, t, i))
  {
    assert t !in q[i];
  }

  // ----- The class's operations

  /** `enqueue_task_ts`: the list is chosen before a woken task is boosted. */
  function Enqueue(s: Ts, t: nat, wakeup: bool): Ts
    requires |s.queue| == MAX_TS_PRIO && t in s.prio && 100 <= s.prio[t] <= 139
  {
    s.(queue := AddTail(s.queue, t, 139 - s.prio[t]),
       prio := if wakeup then s.prio[t := GetNewPrio(s.prio[t], true)] else s.prio)
  }

  /** `dequeue_task_ts`. */
  function Dequeue(s: Ts, t: nat): Ts {
    s.(queue := Unlink(s.queue, t))
  }

  /** `yield_task_ts` by the running task. */
  function Yield(s: Ts, t: nat): Ts
    requires |s.queue| == MAX_TS_PRIO && t in s.prio && 100 <= s.prio[t] <= 139
  {
    s.(queue := MoveTail(s.queue, t, 139 - s.prio[t]))
  }

  /** `task_tick_ts` for the running task. */
  function Tick(s: Ts, t: nat): Ts
    requires |s.queue| == MAX_TS_PRIO && t in s.prio && t in s.slice
  {
    if s.slice[t] != 1 then s.(slice := s.slice[t := s.slice[t] - 1])
    else
      var prio := GetNewPrio(s.prio[t], false);
      Ts(MoveTail(s.queue, t, 139 - prio), s.prio[t := prio], s.slice[t := GetNumTicks(prio)])
  }

  /** `pick_next_task_ts`: the head of the best non-empty list, from level `i` - 1 down. */
  function PickFrom(q: seq<seq<nat>>, i: nat): (r: seq<nat>)
    requires i <= |q|
    ensures |r| <= 1
    ensures r == [] <==> forall j :: 0 <= j < i ==> q[j] == []
    ensures r != [] ==> exists j :: 0 <= j < i && q[j] != [] && r[0] == q[j][0] && forall k :: j < k < i ==> q[k] == []
  {
    if i == 0 then [] else if q[i - 1] != [] then [q[i - 1][0]] else PickFrom(q, i - 1)
  }

  function Pick(s: Ts): seq<nat> {
    PickFrom(s.queue, |s.queue|)
  }

  /** Each queued task sits on the list of its own priority. */
  ghost predicate AlignedAt(s: Ts, t: nat)
    requires t in s.prio
  {
    forall i :: 0 <= i < |s.queue| && t in s.queue[i] ==> i == 139 - s.prio[t]
  }

  lemma EnqueueSafe(s: Ts, t: nat, wakeup: bool)
    requires Safe(s) && t in s.prio && !OnQueue(s.queue, t)
    ensures Safe(Enqueue(s, t, wakeup))
    ensures forall u :: OnQueue(Enqueue(s, t, wakeup).queue, u) <==> OnQueue(s.queue, u) || u == t
  {
    AddTailOnce(s.queue, t, 139 - s.prio[t]);
    AddTailOn(s.queue, t, 139 - s.prio[t]);
    assert forall i :: 0 <= i < MAX_TS_PRIO ==> t !in s.queue[i];
  }

  lemma AddTailOn(q: seq<seq<nat>>, t: nat, i: int)
    requires 0 <= i < |q|
    ensures forall u :: OnQueue(AddTail(q, t, i), u) <==> OnQueue(q, u) || u == t
  {
    var r := AddTail(q, t, i);
    assert t in r[i];
    forall u ensures OnQueue(r, u) <==> OnQueue(q, u) || u == t {
      if OnQueue(q, u) {
        var j :| 0 <= j < |q| && u in q[j];
        assert u in r[j];
      }
      if OnQueue(r, u) && u != t {
        var j :| 0 <= j < |r| && u in r[j];
        assert u in q[j];
      }
    }
  }

  /** An enqueued task is on the list of its own priority unless it is woken below the best one: the
      list was chosen before the boost. */
  lemma EnqueueAligned(s: Ts, t: nat, wakeup: bool)
    requires Safe(s) && t in s.prio && !OnQueue(s.queue, t)
    ensures AlignedAt(Enqueue(s, t, wakeup), t) <==> !wakeup || s.prio[t] == 100
  {
    var r, i := Enqueue(s, t, wakeup), 139 - s.prio[t];
    assert t in r.queue[i];
    assert forall j :: 0 <= j < MAX_TS_PRIO ==> t !in s.queue[j];
  }

  /** A task forked at the lowest priority and woken waits on the lowest list with priority 109. */
  lemma WokenTooLow()
    ensures var s := Enqueue(Ts(Empty().queue, map[7 := 139], map[7 := 12]), 7, true);
            Safe(s) && s.queue[0] == [7] && s.prio[7] == 109 && !AlignedAt(s, 7)
  {
    var s := Ts(Empty().queue, map[7 := 139], map[7 := 12]);
    EnqueueSafe(s, 7, true);
    EnqueueAligned(s, 7, true);
  }

  /** An enqueued task goes behind all others of the list that its priority before the boost names; the boost
      is all that it changes of any task. */
  lemma EnqueueOrder(s: Ts, t: nat, wakeup: bool)
    requires Safe(s) && t in s.prio && !OnQueue(s.queue, t)
    ensures var r, i := Enqueue(s, t, wakeup), 139 - s.prio[t];
            && (forall j :: 0 <= j < MAX_TS_PRIO ==> r.queue[j] == if j == i then s.queue[j] + [t] else s.queue[j])
            && r.slice == s.slice && r.prio.Keys == s.prio.Keys
            && (forall u :: u in s.prio && u != t ==> r.prio[u] == s.prio[u])
            && (if wakeup && s.prio[t] > 100 then 100 <= r.prio[t] < s.prio[t] && r.prio[t] <= 109
                else r.prio[t] == s.prio[t])
  {
  }

  lemma DequeueSafe(s: Ts, t: nat)
    requires Safe(s)
    ensures Safe(Dequeue(s, t)) && !OnQueue(Dequeue(s, t).queue, t)
    ensures forall u :: u != t ==> (OnQueue(Dequeue(s, t).queue, u) <==> OnQueue(s.queue, u))
  {
    UnlinkOnce(s.queue, t);
    var q := Dequeue(s, t).queue;
    forall u | u != t ensures OnQueue(q, u) <==> OnQueue(s.queue, u) {
      if OnQueue(s.queue, u) {
        var i :| 0 <= i < |s.queue| && u in s.queue[i];
        assert u in q[i];
      }
      if OnQueue(q, u) {
        var i :| 0 <= i < |q| && u in q[i];
        assert u in s.queue[i];
      }
    }
  }

  lemma MoveTailSafe(s: Ts, t: nat, i: int)
    requires Once(s.queue) && 0 <= i < |s.queue|
    ensures Once(MoveTail(s.queue, t, i)) && t in MoveTail(s.queue, t, i)[i]
    ensures forall j, u :: 0 <= j < |s.queue| && u != t ==> (u in MoveTail(s.queue, t, i)[j] <==> u in s.queue[j])
    ensures forall j :: 0 <= j < |s.queue| && t in MoveTail(s.queue, t, i)[j] ==> j == i
  {
    UnlinkOnce(s.queue, t);
    AddTailOnce(Unlink(s.queue, t), t, i);
  }

  /** An expiry or a yield puts the task on the list of its own priority. */
  lemma TickSafe(s: Ts, t: nat)
    requires Safe(s) && t in s.prio
    ensures Safe(Tick(s, t))
    ensures s.slice[t] == 1 ==> AlignedAt(Tick(s, t), t)
    ensures forall u :: OnQueue(Tick(s, t).queue, u) <==> OnQueue(s.queue, u) || (u == t && s.slice[t] == 1)
  {
    TickOn(s, t);
    hide MoveTail; hide OnQueue; hide GetNewPrio; hide GetNumTicks;
    if s.slice[t] == 1 {
      MoveTailSafe(s, t, 139 - GetNewPrio(s.prio[t], false));
    }
  }

  lemma TickOn(s: Ts, t: nat)
    requires Safe(s) && t in s.prio
    ensures forall u :: OnQueue(Tick(s, t).queue, u) <==> OnQueue(s.queue, u) || (u == t && s.slice[t] == 1)
  {
    hide MoveTail; hide OnQueue; hide Once; hide GetNumTicks; hide GetNewPrio;
    if s.slice[t] == 1 {
      MoveTailOn(s, t, 139 - GetNewPrio(s.prio[t], false));
    }
  }

  lemma YieldSafe(s: Ts, t: nat)
    requires Safe(s) && t in s.prio
    ensures Safe(Yield(s, t)) && AlignedAt(Yield(s, t), t)
    ensures forall u :: OnQueue(Yield(s, t).queue, u) <==> OnQueue(s.queue, u) || u == t
  {
    hide MoveTail;
    MoveTailSafe(s, t, 139 - s.prio[t]);
    MoveTailOn(s, t, 139 - s.prio[t]);
  }

  lemma MoveTailOn(s: Ts, t: nat, i: int)
    requires Once(s.queue) && 0 <= i < |s.queue|
    ensures forall u :: OnQueue(MoveTail(s.queue, t, i), u) <==> OnQueue(s.queue, u) || u == t
  {
    hide MoveTail;
    MoveTailSafe(s, t, i);
    var r := MoveTail(s.queue, t, i);
    forall u ensures OnQueue(r, u) <==> OnQueue(s.queue, u) || u == t {
      if u != t && OnQueue(s.queue, u) {
        var j :| 0 <= j < |s.queue| && u in s.queue[j];
        assert u in r[j];
      }
      if u != t && OnQueue(r, u) {
        var j :| 0 <= j < |r| && u in r[j];
        assert u in s.queue[j];
      }
    }
  }

  /** List `l` after task `t` left it: what there was, in its order. */
  ghost predicate Less(l: seq<nat>, r: seq<nat>, t: nat) {
    exists k :: 0 <= k <= |l| && Gap(l, r, t, k)
  }

  /** `t` stood at `k`, or nowhere when `k` is the length. */
  ghost predicate Gap(l: seq<nat>, r: seq<nat>, t: nat, k: int)
    requires 0 <= k <= |l|
  {
    if k == |l| then r == l && t !in l else l[k] == t && r == l[..k] + l[k + 1..]
  }

  lemma {:induction false} WithoutLess(l: seq<nat>, t: nat)
    requires Distinct(l)
    ensures Less(l, Without(l, t), t)
  {
    if l == [] {
      assert Gap(l, Without(l, t), t, 0);
    } else if l[0] == t {
      assert t !in l[1..];
      assert Gap(l, Without(l, t), t, 0);
    } else {
      WithoutLess(l[1..], t);
      var k :| 0 <= k <= |l[1..]| && Gap(l[1..], Without(l[1..], t), t, k);
      assert Gap(l, Without(l, t), t, k + 1);
    }
  }

  /** A yield, and an expiry, put the task behind all others of the list that its priority names; whatever is
      left of the lists keeps its order. A dequeue takes the task out. */
  lemma MoveOrder(s: Ts, t: nat, i: int)
    requires Safe(s) && 0 <= i < MAX_TS_PRIO
    ensures var r := MoveTail(s.queue, t, i);
            && r[i] != [] && r[i][|r[i]| - 1] == t && Less(s.queue[i], r[i][..|r[i]| - 1], t)
            && forall j :: 0 <= j < MAX_TS_PRIO && j != i ==> Less(s.queue[j], r[j], t)
  {
    var r := MoveTail(s.queue, t, i);
    hide Less;
    forall j | 0 <= j < MAX_TS_PRIO ensures Less(s.queue[j], Without(s.queue[j], t), t) {
      WithoutLess(s.queue[j], t);
    }
    assert r[i][..|r[i]| - 1] == Without(s.queue[i], t);
  }

  lemma YieldOrder(s: Ts, t: nat)
    requires Safe(s) && t in s.prio
    ensures var r, i := Yield(s, t), 139 - s.prio[t];
            && r.prio == s.prio && r.slice == s.slice && r.queue[i] != [] && r.queue[i][|r.queue[i]| - 1] == t
            && Less(s.queue[i], r.queue[i][..|r.queue[i]| - 1], t)
            && forall j :: 0 <= j < MAX_TS_PRIO && j != i ==> Less(s.queue[j], r.queue[j], t)
  {
    hide MoveTail; hide Less; hide Once;
    MoveOrder(s, t, 139 - s.prio[t]);
  }

  lemma DequeueOrder(s: Ts, t: nat)
    requires Safe(s)
    ensures var r := Dequeue(s, t);
            && r.prio == s.prio && r.slice == s.slice
            && forall j :: 0 <= j < MAX_TS_PRIO ==> Less(s.queue[j], r.queue[j], t)
  {
    hide Less;
    forall j | 0 <= j < MAX_TS_PRIO ensures Less(s.queue[j], Without(s.queue[j], t), t) {
      WithoutLess(s.queue[j], t);
    }
  }

  /** A tick costs the running task one tick of its slice; the last one moves it ten levels down, behind all
      others there, with a full slice of its new level. */
  lemma TickOrder(s: Ts, t: nat)
    requires Safe(s) && t in s.prio
    ensures var r := Tick(s, t);
            && (forall u :: u in s.prio && u != t ==> u in r.prio && r.prio[u] == s.prio[u] && r.slice[u] == s.slice[u])
            && r.prio.Keys == s.prio.Keys == r.slice.Keys
            && (s.slice[t] > 1 ==> r.queue == s.queue && r.prio[t] == s.prio[t] && r.slice[t] == s.slice[t] - 1)
            && (s.slice[t] == 1 ==>
                  && r.prio[t] == (if s.prio[t] > 129 then 139 else s.prio[t] + 10)
                  && r.slice[t] in {4, 8, 12, 16} && 10 * (r.slice[t] - 4) <= 4 * (r.prio[t] - 100) < 10 * r.slice[t]
                  && r.queue == MoveTail(s.queue, t, 139 - r.prio[t]))
  {
    hide MoveTail; hide Once;
  }

  // ----- Waiting time

  ghost predicate Aligned(s: Ts) {
    forall i, t :: 0 <= i < |s.queue| && t in s.queue[i] ==> t in s.prio && i == 139 - s.prio[t]
  }

  /** The level after an expiry, and the slice of a level. */
  ghost function Demote(level: nat): nat {
    if level < 10 then 0 else level - 10
  }

  ghost function Ticks(level: nat): int {
    GetNumTicks(139 - level)
  }

  /** How long a task at `level` with `slice` ticks left must run to fall to level `target` or below. */
  ghost function Drop(level: nat, slice: int, target: nat): int {
    if level <= target then 0 else slice + Drop(Demote(level), Ticks(Demote(level)), target)
  }

  ghost function SliceOf(slice: map<nat, int>, t: nat): int {
    if t in slice then slice[t] else 0
  }

  ghost function DropSum(l: seq<nat>, level: nat, slice: map<nat, int>, target: nat): int {
    if l == [] then 0 else Drop(level, SliceOf(slice, l[0]), target) + DropSum(l[1..], level, slice, target)
  }

  /** The same over the lists from level `k` up. */
  ghost function Above(q: seq<seq<nat>>, slice: map<nat, int>, target: nat, k: nat): int
    decreases |q| - k
  {
    if k >= |q| then 0 else DropSum(q[k], k, slice, target) + Above(q, slice, target, k + 1)
  }

  /** The slices of the tasks in front of `w`. */
  ghost function Ahead(l: seq<nat>, slice: map<nat, int>, w: nat): int {
    if l == [] || l[0] == w then 0 else SliceOf(slice, l[0]) + Ahead(l[1..], slice, w)
  }

  ghost function Level(s: Ts, t: nat): nat
    requires t in s.prio && 100 <= s.prio[t] <= 139
  {
    139 - s.prio[t]
  }

  /** How many ticks task `w` has still to wait. */
  ghost function Wait(s: Ts, w: nat): int
    requires Safe(s) && w in s.prio
  {
    var k := Level(s, w);
    Above(s.queue, s.slice, k, k + 1) + Ahead(s.queue[k], s.slice, w)
  }

  lemma {:induction false} DropSumSlice(l: seq<nat>, level: nat, slice: map<nat, int>, target: nat, p: nat, v: int)
    requires p !in l
    ensures DropSum(l, level, slice[p := v], target) == DropSum(l, level, slice, target)
  {
    if l != [] {
      DropSumSlice(l[1..], level, slice, target, p, v);
    }
  }

  lemma {:induction false} AboveSlice(q: seq<seq<nat>>, slice: map<nat, int>, target: nat, k: nat, p: nat, v: int)
    requires !OnQueue(q, p)
    ensures Above(q, slice[p := v], target, k) == Above(q, slice, target, k)
    decreases |q| - k
  {
    if k < |q| {
      DropSumSlice(q[k], k, slice, target, p, v);
      AboveSlice(q, slice, target, k + 1, p, v);
    }
  }

  lemma {:induction false} AboveUpdate(q: seq<seq<nat>>, slice: map<nat, int>, target: nat, k: nat, i: nat, l: seq<nat>)
    requires i < |q|
    ensures Above(q[i := l], slice, target, k)
            == Above(q, slice, target, k)
               + if k <= i then DropSum(l, i, slice, target) - DropSum(q[i], i, slice, target) else 0
    decreases |q| - k
  {
    if k < |q| {
      AboveUpdate(q, slice, target, k + 1, i, l);
    }
  }

  lemma {:induction false} DropSumTail(l: seq<nat>, level: nat, slice: map<nat, int>, target: nat, p: nat)
    ensures DropSum(l + [p], level, slice, target)
            == DropSum(l, level, slice, target) + Drop(level, SliceOf(slice, p), target)
  {
    if l == [] {
      assert l + [p] == [p];
    } else {
      assert (l + [p])[1..] == l[1..] + [p];
      DropSumTail(l[1..], level, slice, target, p);
    }
  }

  lemma {:induction false} AheadSlice(l: seq<nat>, slice: map<nat, int>, w: nat, p: nat, v: int)
    requires p !in l
    ensures Ahead(l, slice[p := v], w) == Ahead(l, slice, w)
  {
    if l != [] {
      AheadSlice(l[1..], slice, w, p, v);
    }
  }

  lemma {:induction false} AheadTail(l: seq<nat>, slice: map<nat, int>, w: nat, p: nat)
    requires w in l
    ensures Ahead(l + [p], slice, w) == Ahead(l, slice, w)
  {
    if l[0] != w {
      assert (l + [p])[1..] == l[1..] + [p];
      AheadTail(l[1..], slice, w, p);
    }
  }

  /** The running task: head of the highest non-empty list. */
  ghost predicate Runs(s: Ts, p: nat) {
    Pick(s) == [p]
  }

  lemma RunsAt(s: Ts, p: nat)
    requires Safe(s) && Aligned(s) && Runs(s, p)
    ensures p in s.prio
    ensures var i := Level(s, p);
            && s.queue[i] != [] && s.queue[i][0] == p && p !in s.queue[i][1..]
            && (forall k :: i < k < MAX_TS_PRIO ==> s.queue[k] == [])
            && (forall k :: 0 <= k < MAX_TS_PRIO && k != i ==> p !in s.queue[k])
  {
    var j :| 0 <= j < MAX_TS_PRIO && s.queue[j] != [] && p == s.queue[j][0] &&
             forall k :: j < k < MAX_TS_PRIO ==> s.queue[k] == [];
    assert p in s.queue[j];
    assert Distinct(s.queue[j]);
  }

  /** The queues without the running task. */
  ghost function Rest(s: Ts, i: nat): seq<seq<nat>>
    requires i < |s.queue| && s.queue[i] != []
  {
    s.queue[i := s.queue[i][1..]]
  }

  lemma RestIs(s: Ts, p: nat)
    requires Safe(s) && Aligned(s) && Runs(s, p) && p in s.prio && s.queue[Level(s, p)] != []
    ensures Rest(s, Level(s, p)) == Unlink(s.queue, p) && !OnQueue(Rest(s, Level(s, p)), p)
  {
    RunsAt(s, p);
    UnlinkOnce(s.queue, p);
  }

  /** What a tick does to the running task's entry: shorten its slice, or move it down. */
  lemma TickShape(s: Ts, p: nat)
    requires Safe(s) && Aligned(s) && Runs(s, p) && p in s.prio && s.queue[Level(s, p)] != []
    ensures var s', i, x := Tick(s, p), Level(s, p), s.slice[p];
            var j, q0 := Demote(i), Rest(s, i);
            && (x != 1 ==> s'.queue == s.queue && s'.slice == s.slice[p := x - 1])
            && (x == 1 ==> s'.queue == q0[j := q0[j] + [p]] && s'.slice == s.slice[p := Ticks(j)])
  {
    hide Aligned; hide OnQueue; hide Runs; hide Once; hide Unlink; hide GetNumTicks;
    RestIs(s, p);
    assert 139 - GetNewPrio(s.prio[p], false) == Demote(Level(s, p));
    hide GetNewPrio; hide Demote;
  }

  /** `p` heads list `i` of `q` and is on no other; `q0` is `q` without it. */
  ghost predicate Heads(q: seq<seq<nat>>, p: nat, i: nat, q0: seq<seq<nat>>) {
    i < |q| && q[i] != [] && q[i][0] == p && q0 == q[i := q[i][1..]] && !OnQueue(q0, p)
  }

  lemma AboveShorter(q: seq<seq<nat>>, slice: map<nat, int>, p: nat, i: nat, q0: seq<seq<nat>>, k: nat, v: int)
    requires Heads(q, p, i, q0)
    ensures Above(q, slice[p := v], k, k + 1)
            == Above(q, slice, k, k + 1) - if k < i then Drop(i, SliceOf(slice, p), k) - Drop(i, v, k) else 0
  {
    hide Drop;
    AboveUpdate(q, slice, k, k + 1, i, q[i][1..]);
    AboveUpdate(q, slice[p := v], k, k + 1, i, q[i][1..]);
    AboveSlice(q0, slice, k, k + 1, p, v);
    assert q0[i] == q[i][1..];
    DropSumSlice(q0[i], i, slice, k, p, v);
  }

  lemma AboveMoved(q: seq<seq<nat>>, slice: map<nat, int>, p: nat, i: nat, q0: seq<seq<nat>>, k: nat, j: nat, v: int)
    requires Heads(q, p, i, q0) && j < |q|
    ensures Above(q0[j := q0[j] + [p]], slice[p := v], k, k + 1)
            == Above(q, slice, k, k + 1) - (if k < i then Drop(i, SliceOf(slice, p), k) else 0)
               + if k < j then Drop(j, v, k) else 0
  {
    hide Drop;
    AboveUpdate(q, slice, k, k + 1, i, q[i][1..]);
    AboveSlice(q0, slice, k, k + 1, p, v);
    AboveUpdate(q0, slice[p := v], k, k + 1, j, q0[j] + [p]);
    DropSumTail(q0[j], j, slice[p := v], k, p);
  }

  lemma TickHeads(s: Ts, p: nat)
    requires Safe(s) && Aligned(s) && Runs(s, p)
    ensures p in s.prio && s.queue[Level(s, p)] != [] && Heads(s.queue, p, Level(s, p), Rest(s, Level(s, p)))
    ensures 1 <= s.slice[p] && SliceOf(s.slice, p) == s.slice[p]
  {
    RunsAt(s, p);
    RestIs(s, p);
  }

  /** What the tasks above level `k` still have to run, before and after a tick. */
  lemma TickAbove(s: Ts, p: nat, k: nat)
    requires Safe(s) && Aligned(s) && Runs(s, p) && p in s.prio && k <= Level(s, p)
    ensures var s' := Tick(s, p);
            Above(s'.queue, s'.slice, k, k + 1)
            == Above(s.queue, s.slice, k, k + 1) - if k < Level(s, p) then 1 else 0
  {
    hide Aligned; hide Runs; hide Heads; hide Above; hide Tick; hide SliceOf; hide Rest; hide GetNumTicks;
    TickHeads(s, p);
    TickShape(s, p);
    var i, x := Level(s, p), s.slice[p];
    if x == 1 {
      AboveMoved(s.queue, s.slice, p, i, Rest(s, i), k, Demote(i), Ticks(Demote(i)));
    } else {
      AboveShorter(s.queue, s.slice, p, i, Rest(s, i), k, x - 1);
    }
  }

  lemma AheadTick(q: seq<seq<nat>>, slice: map<nat, int>, p: nat, i: nat, q0: seq<seq<nat>>, k: nat, v: int, w: nat)
    requires Heads(q, p, i, q0) && k < |q| && w != p && w in q[k]
    ensures w in q0[k]
    ensures Ahead(q[k], slice[p := v], w) == Ahead(q0[k], slice, w) + if k == i then v else 0
    ensures Ahead(q[k], slice, w) == Ahead(q0[k], slice, w) + if k == i then SliceOf(slice, p) else 0
    ensures Ahead(q0[k] + [p], slice[p := v], w) == Ahead(q0[k], slice, w) == Ahead(q0[k], slice[p := v], w)
  {
    assert p !in q0[k];
    AheadSlice(q0[k], slice, w, p, v);
    AheadTail(q0[k], slice[p := v], w, p);
  }

  lemma TickAhead(s: Ts, p: nat, w: nat)
    requires Safe(s) && Aligned(s) && Runs(s, p) && p in s.prio && w in s.prio && w != p
    requires w in s.queue[Level(s, w)] && Level(s, w) <= Level(s, p)
    ensures var s' := Tick(s, p);
            var k := Level(s, w);
            && k < |s'.queue| && w in s'.queue[k]
            && Ahead(s'.queue[k], s'.slice, w) == Ahead(s.queue[k], s.slice, w) - (if k < Level(s, p) then 0 else 1)
  {
    hide Aligned; hide Runs; hide Heads; hide Ahead; hide Tick; hide SliceOf; hide GetNumTicks;
    TickHeads(s, p);
    TickShape(s, p);
    var i, k := Level(s, p), Level(s, w);
    AheadTick(s.queue, s.slice, p, i, Rest(s, i), k, Tick(s, p).slice[p], w);
  }

  lemma TickAligned(s: Ts, p: nat)
    requires Safe(s) && Aligned(s) && p in s.prio
    ensures Safe(Tick(s, p)) && Aligned(Tick(s, p))
  {
    TickSafe(s, p);
    if s.slice[p] == 1 {
      hide MoveTail;
      MoveTailSafe(s, p, 139 - GetNewPrio(s.prio[p], false));
    }
  }

  lemma WaiterBelow(s: Ts, p: nat, w: nat)
    requires Safe(s) && Aligned(s) && Runs(s, p) && OnQueue(s.queue, w)
    ensures p in s.prio && w in s.prio && w in s.queue[Level(s, w)] && Level(s, w) <= Level(s, p)
  {
    RunsAt(s, p);
    var i :| 0 <= i < |s.queue| && w in s.queue[i];
    assert i == Level(s, w);
  }

  /** One tick of the running task brings every waiting task exactly one tick nearer. */
  lemma TickBringsNearer(s: Ts, p: nat, w: nat)
    requires Safe(s) && Aligned(s) && Runs(s, p) && w != p && OnQueue(s.queue, w)
    ensures p in s.prio && w in s.prio
    ensures var s' := Tick(s, p);
            && Safe(s') && Aligned(s') && OnQueue(s'.queue, w) && w in s'.prio
            && Wait(s', w) == Wait(s, w) - 1
  {
    hide Once; hide Aligned; hide Runs; hide Tick; hide Above; hide Ahead;
    WaiterBelow(s, p, w);
    TickAligned(s, p);
    TickAbove(s, p, Level(s, w));
    TickAhead(s, p, w);
    SameLevel(s, p, w);
  }

  lemma SameLevel(s: Ts, p: nat, w: nat)
    requires Safe(s) && p in s.prio && w in s.prio && w != p
    ensures w in Tick(s, p).prio && Tick(s, p).prio[w] == s.prio[w] && |Tick(s, p).queue| == |s.queue|
  {
  }

  // ----- No starvation

  ghost function Total(q: seq<seq<nat>>, k: nat): nat
    decreases |q| - k
  {
    if k >= |q| then 0 else |q[k]| + Total(q, k + 1)
  }

  lemma {:induction false} DropAtMost(level: nat, slice: int, target: nat)
    requires level < MAX_TS_PRIO && slice <= 16
    ensures Drop(level, slice, target) <= 52
  {
    assert forall l: nat :: l < 10 ==> Drop(l, 16, target) <= 16;
    assert forall l: nat :: l < 20 && 10 <= l ==> Drop(l, 12, target) <= 28;
    assert forall l: nat :: l < 30 && 20 <= l ==> Drop(l, 8, target) <= 36;
  }

  lemma {:induction false} DropSumAtMost(l: seq<nat>, level: nat, slice: map<nat, int>, target: nat)
    requires level < MAX_TS_PRIO && forall t :: t in l ==> SliceOf(slice, t) <= 16
    ensures DropSum(l, level, slice, target) <= 52 * |l|
  {
    if l != [] {
      DropAtMost(level, SliceOf(slice, l[0]), target);
      DropSumAtMost(l[1..], level, slice, target);
    }
  }

  lemma {:induction false} AboveAtMost(q: seq<seq<nat>>, slice: map<nat, int>, target: nat, k: nat)
    requires |q| == MAX_TS_PRIO && forall i, t :: 0 <= i < |q| && t in q[i] ==> SliceOf(slice, t) <= 16
    ensures Above(q, slice, target, k) <= 52 * Total(q, k)
    decreases |q| - k
  {
    if k < |q| {
      DropSumAtMost(q[k], k, slice, target);
      AboveAtMost(q, slice, target, k + 1);
    }
  }

  lemma {:induction false} AheadAtMost(l: seq<nat>, slice: map<nat, int>, w: nat)
    requires w in l && forall t :: t in l ==> 0 <= SliceOf(slice, t) <= 16
    ensures 0 <= Ahead(l, slice, w) <= 52 * (|l| - 1)
  {
    if l[0] != w {
      AheadAtMost(l[1..], slice, w);
    }
  }

  lemma {:induction false} TotalFrom(q: seq<seq<nat>>, k: nat, i: nat)
    requires k <= i < |q|
    ensures Total(q, k) >= |q[i]| + Total(q, i + 1)
    decreases i - k
  {
    if k < i {
      TotalFrom(q, k + 1, i);
    }
  }

  /** With n tasks queued, nobody waits longer than 52 (n - 1) ticks. */
  lemma WaitAtMost(s: Ts, w: nat)
    requires Safe(s) && Aligned(s) && OnQueue(s.queue, w) && w in s.prio
    ensures Wait(s, w) <= 52 * (Total(s.queue, 0) - 1)
  {
    var k := Level(s, w);
    var i :| 0 <= i < |s.queue| && w in s.queue[i];
    assert i == k;
    AboveAtMost(s.queue, s.slice, k, k + 1);
    AheadAtMost(s.queue[k], s.slice, w);
    TotalFrom(s.queue, 0, k);
  }

  lemma {:induction false} DropAtLeast(l: seq<nat>, level: nat, slice: map<nat, int>, target: nat)
    requires level < MAX_TS_PRIO && forall t :: t in l ==> SliceOf(slice, t) >= 1
    ensures DropSum(l, level, slice, target) >= if level > target then |l| else 0
  {
    if l != [] {
      assert Drop(level, SliceOf(slice, l[0]), target) >= if level > target then 1 else 0 by {
        DropPositive(level, SliceOf(slice, l[0]), target);
      }
      DropAtLeast(l[1..], level, slice, target);
    }
  }

  lemma {:induction false} DropPositive(level: nat, slice: int, target: nat)
    requires level < MAX_TS_PRIO && slice >= 1
    ensures Drop(level, slice, target) >= if level > target then 1 else 0
  {
    if level > target {
      DropPositive(Demote(level), Ticks(Demote(level)), target);
    }
  }

  lemma {:induction false} AbovePositive(q: seq<seq<nat>>, slice: map<nat, int>, target: nat, k: nat)
    requires |q| == MAX_TS_PRIO && target < k && forall i, t :: 0 <= i < |q| && t in q[i] ==> SliceOf(slice, t) >= 1
    ensures Above(q, slice, target, k) >= 0
    ensures Above(q, slice, target, k) == 0 ==> forall i :: k <= i < |q| ==> q[i] == []
    decreases |q| - k
  {
    if k < |q| {
      DropAtLeast(q[k], k, slice, target);
      AbovePositive(q, slice, target, k + 1);
    }
  }

  lemma {:induction false} AheadPositive(l: seq<nat>, slice: map<nat, int>, w: nat)
    requires w in l && forall t :: t in l ==> SliceOf(slice, t) >= 1
    ensures Ahead(l, slice, w) >= 0 && (Ahead(l, slice, w) == 0 ==> l[0] == w)
  {
    if l[0] != w {
      AheadPositive(l[1..], slice, w);
    }
  }

  lemma {:induction false} PickSkips(q: seq<seq<nat>>, k: nat, n: nat)
    requires k < n <= |q| && q[k] != [] && forall i :: k < i < n ==> q[i] == []
    ensures PickFrom(q, n) == [q[k][0]]
  {
    if n - 1 > k {
      PickSkips(q, k, n - 1);
    }
  }

  /** A task whose waiting time is up is the one picked. */
  lemma WaitIsOver(s: Ts, w: nat)
    requires Safe(s) && Aligned(s) && OnQueue(s.queue, w) && w in s.prio
    ensures Wait(s, w) >= 0 && (Wait(s, w) == 0 ==> Runs(s, w))
  {
    var k := Level(s, w);
    var i :| 0 <= i < |s.queue| && w in s.queue[i];
    assert i == k;
    AbovePositive(s.queue, s.slice, k, k + 1);
    AheadPositive(s.queue[k], s.slice, w);
    if Wait(s, w) == 0 {
      PickSkips(s.queue, k, |s.queue|);
    }
  }

  /** The class left to itself: at each tick the task at the head of the best list is charged. */
  ghost function TickRun(s: Ts, n: nat): Ts
    requires Safe(s) && Aligned(s)
    decreases n
  {
    if n == 0 || Pick(s) == [] then s
    else
      var p := Pick(s)[0];
      RunsAt(s, p);
      TickAligned(s, p);
      TickRun(Tick(s, p), n - 1)
  }

  /** No starvation: in a run of ticks, a queued task is first picked after exactly `Wait` ticks, which
      is at most 52 (n - 1) for n queued tasks. */
  lemma {:induction false} NoStarvation(s: Ts, w: nat, n: nat)
    requires Safe(s) && Aligned(s) && OnQueue(s.queue, w) && w in s.prio && n <= Wait(s, w)
    ensures Wait(s, w) <= 52 * (Total(s.queue, 0) - 1)
    ensures Runs(TickRun(s, n), w) <==> n == Wait(s, w)
    decreases n
  {
    hide Aligned; hide Wait; hide Tick;
    WaitAtMost(s, w);
    WaitIsOver(s, w);
    PickedWaitsNot(s, w);
    if n > 0 {
      var p := Pick(s)[0];
      TickBringsNearer(s, p, w);
      NoStarvation(Tick(s, p), w, n - 1);
    }
  }

  /** A picked task is not waiting. */
  lemma PickedWaitsNot(s: Ts, w: nat)
    requires Safe(s) && Aligned(s) && OnQueue(s.queue, w) && w in s.prio
    ensures |Pick(s)| == 1
    ensures Runs(s, w) ==> Wait(s, w) == 0
  {
    var i :| 0 <= i < |s.queue| && w in s.queue[i];
    assert s.queue[i] != [];
    if Runs(s, w) {
      RunsAt(s, w);
      NoneAbove(s.queue, s.slice, Level(s, w), Level(s, w) + 1);
    }
  }

  lemma {:induction false} NoneAbove(q: seq<seq<nat>>, slice: map<nat, int>, target: nat, k: nat)
    requires forall i :: k <= i < |q| ==> q[i] == []
    ensures Above(q, slice, target, k) == 0
    decreases |q| - k
  {
    if k < |q| {
      NoneAbove(q, slice, target, k + 1);
    }
  }

  // ----- All runs

  datatype Op =
    | Fork(t: nat, prio: int)        // __sched_fork gives a new task a slice of 12
    | SetPrio(t: nat, prio: int)     // a nice value or policy change, made while dequeued
    | DoEnqueue(t: nat, wakeup: bool)
    | DoDequeue(t: nat)
    | DoYield(t: nat)
    | DoTick(t: nat)

  ghost predicate Enabled(s: Ts, op: Op) {
    match op
    case Fork(t, prio) => t !in s.prio && 100 <= prio <= 139
    case SetPrio(t, prio) => t in s.prio && !OnQueue(s.queue, t) && 100 <= prio <= 139
    case DoEnqueue(t, _) => t in s.prio && !OnQueue(s.queue, t)
    case DoDequeue(t) => true
    case DoYield(t) => t in s.prio && OnQueue(s.queue, t)
    case DoTick(t) => t in s.prio && OnQueue(s.queue, t)
  }

  ghost function Step(s: Ts, op: Op): Ts
    requires Safe(s) && Enabled(s, op)
  {
    match op
    case Fork(t, prio) => s.(prio := s.prio[t := prio], slice := s.slice[t := 12])
    case SetPrio(t, prio) => s.(prio := s.prio[t := prio])
    case DoEnqueue(t, wakeup) => Enqueue(s, t, wakeup)
    case DoDequeue(t) => Dequeue(s, t)
    case DoYield(t) => Yield(s, t)
    case DoTick(t) => Tick(s, t)
  }

  /** Whether `u` is runnable after `op`, given whether it was: what the callers mean by it. */
  ghost predicate RunnableAfter(op: Op, u: nat, before: bool) {
    match op
    case DoEnqueue(t, _) => before || u == t
    case DoDequeue(t) => before && u != t
    case _ => before
  }

  /** `u` is runnable: it has been enqueued and not dequeued since. */
  ghost predicate Runnable(ops: seq<Op>, u: nat) {
    ops != [] && RunnableAfter(ops[|ops| - 1], u, Runnable(ops[..|ops| - 1], u))
  }

  /** Every operation keeps priorities within 100..139, slices within 1..16 so that the decrement never
      wraps, no list above its tasks' priority and no task linked twice; and exactly the runnable tasks
      are linked. */
  lemma StepSafe(s: Ts, op: Op)
    requires Safe(s) && Enabled(s, op)
    ensures Safe(Step(s, op))
    ensures forall u :: OnQueue(Step(s, op).queue, u) <==> RunnableAfter(op, u, OnQueue(s.queue, u))
    ensures op.Fork? || op.SetPrio? ==>
              var r := Step(s, op);
              && r.queue == s.queue && op.t in r.prio && r.prio[op.t] == op.prio
              && op.t in r.slice && r.slice[op.t] == (if op.Fork? then 12 else s.slice[op.t])
  {
    match op
    case Fork(t, prio) => assert forall i :: 0 <= i < MAX_TS_PRIO ==> t !in s.queue[i];
    case SetPrio(t, prio) => assert forall i :: 0 <= i < MAX_TS_PRIO ==> t !in s.queue[i];
    case DoEnqueue(t, wakeup) => EnqueueSafe(s, t, wakeup);
    case DoDequeue(t) => DequeueSafe(s, t);
    case DoYield(t) => YieldSafe(s, t);
    case DoTick(t) => TickSafe(s, t);
  }

  ghost function Empty(): Ts {
    Ts(seq(MAX_TS_PRIO, _ => []), map[], map[])
  }

  ghost predicate Follows(s: Ts, op: Op, r: Ts) {
    Safe(s) ==> Enabled(s, op) && r == Step(s, op)
  }

  /** `t` is linked at one place of one list and nowhere else. */
  ghost predicate LinkedOnce(q: seq<seq<nat>>, t: nat) {
    exists i, k :: 0 <= i < |q| && 0 <= k < |q[i]| && q[i][k] == t && OnlyAt(q, t, i, k)
  }

  ghost predicate OnlyAt(q: seq<seq<nat>>, t: nat, i: int, k: int) {
    forall j, l :: 0 <= j < |q| && 0 <= l < |q[j]| && q[j][l] == t ==> j == i && l == k
  }

  lemma OnceIsOne(q: seq<seq<nat>>, t: nat)
    requires Once(q) && OnQueue(q, t)
    ensures LinkedOnce(q, t)
  {
    var i :| 0 <= i < |q| && t in q[i];
    var k :| 0 <= k < |q[i]| && q[i][k] == t;
    forall j, l | 0 <= j < |q| && 0 <= l < |q[j]| && q[j][l] == t ensures j == i && l == k {
      assert t in q[j];
    }
    assert OnlyAt(q, t, i, k);
  }

  /** Over every run, each runnable task is on exactly one list and every other task on none; priorities,
      slices and list indices keep their ranges. */
  lemma {:induction false} RunsAreSafe(run: seq<Ts>, ops: seq<Op>, n: nat)
    requires |run| == |ops| + 1 && run[0] == Empty() && n < |run|
    requires forall i :: 0 <= i < |ops| ==> Follows(run[i], ops[i], run[i + 1])
    ensures Safe(run[n])
    ensures forall u :: OnQueue(run[n].queue, u) <==> Runnable(ops[..n], u)
    ensures forall u :: Runnable(ops[..n], u) ==> LinkedOnce(run[n].queue, u)
  {
    hide Step; hide Enabled; hide LinkedOnce;
    if n > 0 {
      RunsAreSafe(run, ops, n - 1);
      assert Follows(run[n - 1], ops[n - 1], run[n - 1 + 1]);
      StepSafe(run[n - 1], ops[n - 1]);
      assert ops[..n][..n - 1] == ops[..n - 1];
      hide OnQueue; hide RunnableAfter;
    }
    forall u | OnQueue(run[n].queue, u) ensures LinkedOnce(run[n].queue, u) {
      OnceIsOne(run[n].queue, u);
    }
  }

  // ----- The class

  class TsRq {
    const queue: array<seq<nat>>
    var prio: map<nat, int>
    var slice: map<nat, int>
    var needResched: bool

    ghost function View(): Ts
      reads this, queue
    {
      Ts(queue[..], prio, slice)
    }

    ghost predicate Valid()
      reads this, queue
    {
      Safe(View())
    }

    /** `init_ts_rq`. */
    constructor ()
      ensures Valid() && View() == Empty() && fresh(queue)
    {
      queue := new seq<nat>[MAX_TS_PRIO];
      prio, slice, needResched := map[], map[], false;
      new;
      var i := 0;
      while i < MAX_TS_PRIO
        invariant 0 <= i <= MAX_TS_PRIO && prio == map[] && slice == map[] && fresh(queue)
        invariant forall j :: 0 <= j < i ==> queue[j] == []
      {
        queue[i] := [];
        i := i + 1;
      }
      assert queue[..] == Empty().queue;
    }

    /** `list_del`. */
    method ListDel(t: nat)
      modifies queue
      ensures queue[..] == Unlink(old(queue[..]), t)
    {
      var i := 0;
      while i < queue.Length
        invariant 0 <= i <= queue.Length
        invariant forall j :: 0 <= j < i ==> queue[j] == Without(old(queue[j]), t)
        invariant forall j :: i <= j < queue.Length ==> queue[j] == old(queue[j])
      {
        queue[i] := Without(queue[i], t);
        i := i + 1;
      }
    }

    method EnqueueTask(t: nat, wakeup: bool)
      requires Valid() && t in prio && !OnQueue(queue[..], t)
      modifies this, queue
      ensures Valid() && View() == Enqueue(old(View()), t, wakeup)
    {
      EnqueueSafe(View(), t, wakeup);
      hide Safe;
      var idx := 139 - prio[t];
      if wakeup {
        prio := prio[t := GetNewPrio(prio[t], true)];
      }
      queue[idx] := queue[idx] + [t];
    }

    method DequeueTask(t: nat)
      requires Valid()
      modifies queue
      ensures Valid() && View() == Dequeue(old(View()), t)
    {
      DequeueSafe(View(), t);
      ListDel(t);
    }

    method YieldTask(t: nat)
      requires Valid() && t in prio
      modifies queue
      ensures Valid() && View() == Yield(old(View()), t)
    {
      YieldSafe(View(), t);
      hide Once;
      var idx := 139 - prio[t];
      ListDel(t);
      queue[idx] := queue[idx] + [t];
    }

    /** `pick_next_task_ts`: no task, or the head of the best non-empty list. */
    method PickNextTask() returns (r: seq<nat>)
      requires Valid()
      ensures r == Pick(View())
    {
      hide Once;
      var i := MAX_TS_PRIO;
      while i > 0
        invariant 0 <= i <= MAX_TS_PRIO
        invariant PickFrom(queue[..], i) == Pick(View())
      {
        i := i - 1;
        if queue[i] != [] {
          return [queue[i][0]];
        }
      }
      return [];
    }

    /** `task_tick_ts` for a task of this class. */
    method TaskTick(t: nat)
      requires Valid() && t in prio
      modifies this, queue
      ensures Valid() && View() == Tick(old(View()), t)
      ensures needResched == (old(needResched) || old(slice[t]) == 1)
    {
      TickSafe(View(), t);
      hide Once;
      slice := slice[t := slice[t] - 1];
      if slice[t] != 0 {
        return;
      }
      prio := prio[t := GetNewPrio(prio[t], false)];
      slice := slice[t := GetNumTicks(prio[t])];
      var idx := 139 - prio[t];
      ListDel(t);
      queue[idx] := queue[idx] + [t];
      needResched := true;
    }
  }
}
