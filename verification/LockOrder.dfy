/** Run-queue locks and the tasks' `pi_lock`s, taken by any number of CPUs through the routines of
    `sched.h` and `core.c`. */
module LockOrder {

  /** A lock and its address. */
  datatype Lock = Pi(addr: int) | Rq(addr: int)

  /** Every `pi_lock` comes before every run-queue lock; within a kind, addresses decide. */
  predicate Less(a: Lock, b: Lock) {
    if a.Pi? == b.Pi? then a.addr < b.addr else a.Pi?
  }

  /** What a CPU has still to do inside a lock routine. */
  datatype Prog =
    | Done
    | Acquire(l: Lock, next: Prog)
    | Release(l: Lock, next: Prog)
    | Try(l: Lock, got: Prog, busy: Prog)  // raw_spin_trylock

  // ----- The routines

  datatype Routine =
    | RqLock(r: int)
    | RqUnlock(r: int)
    | PiLock(p: int)
    | PiUnlock(p: int)
    | DoubleRqLock(r1: int, r2: int)
    | DoubleRqUnlock(r1: int, r2: int)
    | DoubleRawLock(p1: int, p2: int)                    // on two pi_locks, as in migrate_swap_stop
    | LockBalanceFair(this_: int, busiest: int)          // _double_lock_balance, CONFIG_PREEMPT
    | LockBalanceUnfair(this_: int, busiest: int)        // _double_lock_balance otherwise
    | UnlockBalance(this_: int, busiest: int)
    | WakeUpLocal(p: int, this_: int)                    // try_to_wake_up_local
    | MoveQueued(src: int, dst: int)                     // move_queued_task

  function LockBoth(r1: int, r2: int, next: Prog): Prog {
    if r1 == r2 then Acquire(Rq(r1), next)
    else if r1 < r2 then Acquire(Rq(r1), Acquire(Rq(r2), next))
    else Acquire(Rq(r2), Acquire(Rq(r1), next))
  }

  function Code(f: Routine): Prog {
    match f
    case RqLock(r) => Acquire(Rq(r), Done)
    case RqUnlock(r) => Release(Rq(r), Done)
    case PiLock(p) => Acquire(Pi(p), Done)
    case PiUnlock(p) => Release(Pi(p), Done)
    case DoubleRqLock(r1, r2) => LockBoth(r1, r2, Done)
    case DoubleRqUnlock(r1, r2) => Release(Rq(r1), if r1 != r2 then Release(Rq(r2), Done) else Done)
    case DoubleRawLock(p1, p2) =>
      if p1 > p2 then Acquire(Pi(p2), Acquire(Pi(p1), Done)) else Acquire(Pi(p1), Acquire(Pi(p2), Done))
    case LockBalanceFair(t, b) => Release(Rq(t), LockBoth(t, b, Done))
    case LockBalanceUnfair(t, b) =>
      Try(Rq(b), Done,
          if b < t then Release(Rq(t), Acquire(Rq(b), Acquire(Rq(t), Done))) else Acquire(Rq(b), Done))
    case UnlockBalance(t, b) => Release(Rq(b), Done)
    case WakeUpLocal(p, t) =>
      Try(Pi(p), Done, Release(Rq(t), Acquire(Pi(p), Acquire(Rq(t), Done))))
    case MoveQueued(src, dst) => Release(Rq(src), Acquire(Rq(dst), Done))
  }

  ghost predicate NoRq(held: set<Lock>) {
    forall l :: l in held ==> l.Pi?
  }

  ghost predicate OnlyRq(held: set<Lock>, r: int) {
    Rq(r) in held && forall l :: l in held && l.Rq? ==> l == Rq(r)
  }

  ghost predicate NoPi(held: set<Lock>) {
    forall l :: l in held ==> l.Rq?
  }

  /** What each routine demands of the locks its caller holds. */
  ghost predicate Callable(held: set<Lock>, f: Routine) {
    match f
    case RqLock(_) => NoRq(held)
    case RqUnlock(r) => Rq(r) in held
    case PiLock(_) => held == {}
    case PiUnlock(p) => Pi(p) in held
    case DoubleRqLock(_, _) => NoRq(held)
    case DoubleRqUnlock(r1, r2) => Rq(r1) in held && Rq(r2) in held
    case DoubleRawLock(p1, p2) => held == {} && p1 != p2
    case LockBalanceFair(t, b) => OnlyRq(held, t)
    case LockBalanceUnfair(t, b) => OnlyRq(held, t) && t != b
    case UnlockBalance(t, b) => Rq(b) in held
    case WakeUpLocal(p, t) => OnlyRq(held, t) && NoPi(held)
    case MoveQueued(src, dst) => OnlyRq(held, src)
  }

  // ----- The machine

  datatype Cpu = Cpu(held: set<Lock>, todo: Prog)

  type System = seq<Cpu>

  ghost predicate Unheld(s: System, l: Lock) {
    forall c :: 0 <= c < |s| ==> l !in s[c].held
  }

  /** CPU `c` makes one step: it calls a routine, or does the next thing its routine wants. */
  ghost predicate Next(s: System, s': System, c: nat) {
    && c < |s|
    && exists n :: s' == s[c := n] && CpuStep(s, s[c], n)
  }

  ghost predicate CpuStep(s: System, o: Cpu, n: Cpu) {
    match o.todo
    case Done => exists f :: Callable(o.held, f) && n == Cpu(o.held, Code(f))
    case Acquire(l, next) => Unheld(s, l) && n == Cpu(o.held + {l}, next)
    case Release(l, next) => n == Cpu(o.held - {l}, next)
    case Try(l, got, busy) => n == if Unheld(s, l) then Cpu(o.held + {l}, got) else Cpu(o.held, busy)
  }

  ghost predicate Step(s: System, s': System) {
    exists c :: Next(s, s', c)
  }

  ghost predicate IsRun(run: seq<System>) {
    && run != []
    && (forall c :: 0 <= c < |run[0]| ==> run[0][c] == Cpu({}, Done))
    && forall i :: 0 < i < |run| ==> Step(run[i - 1], run[i])
  }

  ghost predicate Blocked(s: System, c: nat) {
    c < |s| && s[c].todo.Acquire? && !Unheld(s, s[c].todo.l)
  }

  /** `c` is waiting for a lock that `d` holds. */
  ghost predicate WaitsFor(s: System, c: nat, d: nat) {
    c < |s| && d < |s| && s[c].todo.Acquire? && s[c].todo.l in s[d].held
  }

  // ----- The invariant

  /** From here to the end of its routine the CPU waits only for locks above all it then holds. */
  ghost predicate Ordered(held: set<Lock>, todo: Prog)
    decreases todo
  {
    match todo
    case Done => true
    case Acquire(l, next) => (forall h :: h in held ==> Less(h, l)) && Ordered(held + {l}, next)
    case Release(l, next) => l in held && Ordered(held - {l}, next)
    case Try(l, got, busy) => l !in held && Ordered(held + {l}, got) && Ordered(held, busy)
  }

  ghost predicate Inv(s: System) {
    && (forall c :: 0 <= c < |s| ==> Ordered(s[c].held, s[c].todo))
    && (forall c, d :: 0 <= c < d < |s| ==> s[c].held !! s[d].held)
  }

  lemma LockBothOrdered(held: set<Lock>, r1: int, r2: int)
    requires NoRq(held)
    ensures Ordered(held, LockBoth(r1, r2, Done))
  {
  }

  /** Every routine respects the order, whatever branch its trylock takes. */
  lemma RoutineOrdered(held: set<Lock>, f: Routine)
    requires Callable(held, f)
    ensures Ordered(held, Code(f))
  {
    match f
    case DoubleRqLock(r1, r2) => LockBothOrdered(held, r1, r2);
    case LockBalanceFair(t, b) => LockBothOrdered(held - {Rq(t)}, t, b);
    case LockBalanceUnfair(t, b) =>
      if b < t {
        assert NoRq(held - {Rq(t)});
        assert Ordered(held - {Rq(t)}, Acquire(Rq(b), Acquire(Rq(t), Done)));
      }
    case WakeUpLocal(p, t) =>
      assert held - {Rq(t)} == {};
      assert Ordered(held - {Rq(t)}, Acquire(Pi(p), Acquire(Rq(t), Done)));
    case _ =>
  }

  /** However its trylocks fare, the routine returns with `final` held. */
  ghost predicate Ends(held: set<Lock>, todo: Prog, final: set<Lock>)
    decreases todo
  {
    match todo
    case Done => held == final
    case Acquire(l, next) => Ends(held + {l}, next, final)
    case Release(l, next) => Ends(held - {l}, next, final)
    case Try(l, got, busy) => Ends(held + {l}, got, final) && Ends(held, busy, final)
  }

  /** The lock annotations of the routines: what each returns with, given what it was called with. */
  ghost function Promised(held: set<Lock>, f: Routine): set<Lock> {
    match f
    case RqLock(r) => held + {Rq(r)}
    case RqUnlock(r) => held - {Rq(r)}
    case PiLock(p) => held + {Pi(p)}
    case PiUnlock(p) => held - {Pi(p)}
    case DoubleRqLock(r1, r2) => held + {Rq(r1), Rq(r2)}
    case DoubleRqUnlock(r1, r2) => held - {Rq(r1), Rq(r2)}
    case DoubleRawLock(p1, p2) => held + {Pi(p1), Pi(p2)}
    case LockBalanceFair(t, b) => held + {Rq(b)}
    case LockBalanceUnfair(t, b) => held + {Rq(b)}
    case UnlockBalance(t, b) => held - {Rq(b)}
    case WakeUpLocal(p, t) => held + {Pi(p)}
    case MoveQueued(src, dst) => held - {Rq(src)} + {Rq(dst)}
  }

  lemma RoutineEnds(held: set<Lock>, f: Routine)
    requires Callable(held, f)
    ensures Ends(held, Code(f), Promised(held, f))
  {
    match f
    case DoubleRqLock(r1, r2) =>
      assert held + {Rq(r1)} + {Rq(r2)} == held + {Rq(r2)} + {Rq(r1)} == held + {Rq(r1), Rq(r2)};
    case DoubleRqUnlock(r1, r2) => assert held - {Rq(r1)} - {Rq(r2)} == held - {Rq(r1), Rq(r2)};
    case DoubleRawLock(p1, p2) =>
      assert held + {Pi(p1)} + {Pi(p2)} == held + {Pi(p2)} + {Pi(p1)} == held + {Pi(p1), Pi(p2)};
    case LockBalanceFair(t, b) =>
      assert held - {Rq(t)} + {Rq(b)} + {Rq(t)} == held - {Rq(t)} + {Rq(t)} + {Rq(b)} == held + {Rq(b)};
      assert Ends(held - {Rq(t)}, LockBoth(t, b, Done), held + {Rq(b)});
    case LockBalanceUnfair(t, b) =>
      assert held - {Rq(t)} + {Rq(b)} + {Rq(t)} == held + {Rq(b)};
      assert Ends(held - {Rq(t)}, Acquire(Rq(b), Acquire(Rq(t), Done)), held + {Rq(b)});
    case WakeUpLocal(p, t) =>
      assert held - {Rq(t)} + {Pi(p)} + {Rq(t)} == held + {Pi(p)};
      assert Ends(held - {Rq(t)}, Acquire(Pi(p), Acquire(Rq(t), Done)), held + {Pi(p)});
    case _ =>
  }

  lemma NextKeeps(s: System, s': System, c: nat)
    requires Inv(s) && Next(s, s', c)
    ensures Inv(s')
  {
    var n :| s' == s[c := n] && CpuStep(s, s[c], n);
    if s[c].todo.Done? {
      var f :| Callable(s[c].held, f) && n == Cpu(s[c].held, Code(f));
      RoutineOrdered(s[c].held, f);
    }
  }

  /** What is left of the routine lets go of `l` on some branch. */
  ghost predicate Drops(todo: Prog, l: Lock) {
    match todo
    case Done => false
    case Acquire(_, next) => Drops(next, l)
    case Release(h, next) => h == l || Drops(next, l)
    case Try(_, got, busy) => Drops(got, l) || Drops(busy, l)
  }

  /** `_double_lock_balance` lets go of the lock its caller holds only when the other one is taken and the
      lower: otherwise the caller's queue cannot have changed under it. */
  lemma BalanceDrops(s: System, s': System, c: nat, t: int, b: int)
    requires Inv(s) && Next(s, s', c) && s[c].todo == Code(LockBalanceUnfair(t, b)) && Rq(t) in s[c].held
    ensures Rq(t) in s'[c].held && (Drops(s'[c].todo, Rq(t)) <==> !Unheld(s, Rq(b)) && b < t)
    ensures Unheld(s, Rq(b)) <==> s'[c].todo == Done && Rq(b) in s'[c].held
  {
    assert Ordered(s[c].held, s[c].todo);
  }

  lemma {:induction false} RunKeeps(run: seq<System>)
    requires IsRun(run)
    ensures forall i :: 0 <= i < |run| ==> Inv(run[i])
  {
    hide Next;
    assert Inv(run[0]);
    hide Inv;
    for n := 1 to |run|
      invariant forall i :: 0 <= i < n ==> Inv(run[i])
    {
      assert Step(run[n - 1], run[n]);
      var c :| Next(run[n - 1], run[n], c);
      NextKeeps(run[n - 1], run[n], c);
    }
  }

  // ----- No deadlock

  /** A CPU waiting for a run-queue lock holds only lower run-queue locks; one waiting for a `pi_lock`
      holds no run-queue lock. */
  lemma WaitersHoldLess(run: seq<System>, i: nat, c: nat)
    requires IsRun(run) && i < |run| && c < |run[i]| && run[i][c].todo.Acquire?
    ensures var l := run[i][c].todo.l;
            && (l.Rq? ==> forall h :: h in run[i][c].held && h.Rq? ==> h.addr < l.addr)
            && (l.Pi? ==> NoRq(run[i][c].held))
  {
    RunKeeps(run);
    assert Ordered(run[i][c].held, run[i][c].todo);
  }

  lemma WaitRises(s: System, c: nat, d: nat)
    requires Inv(s) && WaitsFor(s, c, d) && s[d].todo.Acquire?
    ensures Less(s[c].todo.l, s[d].todo.l)
  {
    assert Ordered(s[d].held, s[d].todo);
  }

  lemma {:induction false} ChainRises(s: System, cs: seq<nat>, n: nat)
    requires Inv(s) && 0 < n < |cs|
    requires forall i :: 0 <= i < |cs| - 1 ==> WaitsFor(s, cs[i], cs[i + 1])
    requires cs[|cs| - 1] < |s| && s[cs[|cs| - 1]].todo.Acquire?
    ensures cs[0] < |s| && s[cs[0]].todo.Acquire? && cs[n] < |s| && s[cs[n]].todo.Acquire?
    ensures Less(s[cs[0]].todo.l, s[cs[n]].todo.l)
  {
    assert WaitsFor(s, cs[0], cs[0 + 1]);
    assert WaitsFor(s, cs[n - 1], cs[n - 1 + 1]);
    assert n < |cs| - 1 ==> WaitsFor(s, cs[n], cs[n + 1]);
    WaitRises(s, cs[n - 1], cs[n]);
    if n > 1 {
      ChainRises(s, cs, n - 1);
    }
  }

  /** No reachable state has a cycle of waiters, of any length; not even a CPU waiting for itself. */
  lemma NoCycle(run: seq<System>, i: nat, cs: seq<nat>)
    requires IsRun(run) && i < |run| && |cs| >= 2
    ensures !(cs[0] == cs[|cs| - 1] && forall j :: 0 <= j < |cs| - 1 ==> WaitsFor(run[i], cs[j], cs[j + 1]))
  {
    var s := run[i];
    RunKeeps(run);
    if cs[0] == cs[|cs| - 1] && forall j :: 0 <= j < |cs| - 1 ==> WaitsFor(s, cs[j], cs[j + 1]) {
      assert WaitsFor(s, cs[0], cs[0 + 1]);
      ChainRises(s, cs, |cs| - 1);
    }
  }

  /** The CPUs blocked on a lock above `l`. */
  ghost function BlockedAbove(s: System, l: Lock): set<nat> {
    set c | 0 <= c < |s| && s[c].todo.Acquire? && Less(l, s[c].todo.l)
  }

  /** Whenever a CPU is blocked, some CPU that holds a wanted lock is not: the system can always move. */
  lemma {:induction false} SomeHolderRuns(s: System, c: nat) returns (w: nat, d: nat)
    requires Inv(s) && Blocked(s, c)
    ensures WaitsFor(s, w, d) && !Blocked(s, d)
    decreases BlockedAbove(s, s[c].todo.l)
  {
    w := c;
    d :| 0 <= d < |s| && s[c].todo.l in s[d].held;
    if Blocked(s, d) {
      WaitRises(s, c, d);
      assert d in BlockedAbove(s, s[c].todo.l) && d !in BlockedAbove(s, s[d].todo.l);
      w, d := SomeHolderRuns(s, d);
    }
  }
}
