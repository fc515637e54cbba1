/** The push-IPI protocol of one root domain: CPUs that drop to a lower priority ask the overloaded
    ones to push tasks away, and a single irq work visits them in turn. */
module PushIpi {
  import opened Words

  /** Where an agent stands. Tellers run `tell_cpu_to_push`; handlers run `rto_push_irq_work_func`.
      `h` tells the two apart inside the lock. */
  datatype Pc =
    | Idle
    | Asked                      // rto_loop_next raised, before rto_start_trylock
    | WantLock                   // start flag taken, rto_lock wanted
    | Entered                    // rto_lock held, rto_cpu not yet looked at
    | Visit(cpu: int)            // handler started on cpu
    | Visited                    // tasks pushed, rto_lock wanted
    | Scan(h: bool)              // rto_next_cpu: at cpumask_next
    | Read(h: bool)              // rto_next_cpu: rto_cpu set to -1, at the read of rto_loop_next
    | Leave(h: bool, cpu: int)   // rto_next_cpu returned cpu, rto_lock still held
    | Unlocked(cpu: int)         // teller: rto_lock released, start flag still held
    | Send(cpu: int)             // teller: start flag released
    | Queue(cpu: int)            // about to call irq_work_queue_on
    | Put                        // handler: about to drop the domain reference

  /** `asks` and `loopAt` count increments of `rto_loop_next`; the 32-bit registers hold them modulo
      2^32. `work` is the CPU the irq work is pending on, or -1. The last three fields are history:
      the pass of the mask in progress began when `asks` was `passAt`; `through` has been in the mask
      ever since, and `seen` has been visited since. */
  datatype Rd = Rd(asks: nat, loopAt: nat, start: bool, lock: int, rtoCpu: int, mask: set<int>,
                   work: int, refs: int, agent: map<nat, Pc>,
                   passAt: nat, through: set<int>, seen: set<int>)

  datatype Action =
    | Overload(c: nat) | Underload(c: nat)     // rt_set_overload, rt_clear_overload
    | Ask(i: nat) | TryStart(i: nat)
    | Deliver(i: nat)                          // the irq work starts running
    | Push(i: nat) | TakeLock(i: nat) | Look(i: nat)
    | NextCpu(i: nat, next: int) | Exhaust(i: nat) | Reread(i: nat)
    | DropLock(i: nat) | DropStart(i: nat) | Hold(i: nat) | Post(i: nat) | Release(i: nat)

  ghost predicate At(s: Rd, i: nat, pc: Pc) {
    i in s.agent && s.agent[i] == pc
  }

  ghost predicate AtScan(s: Rd, i: nat) {
    i in s.agent && s.agent[i].Scan?
  }

  /** `cpumask_next`. */
  ghost predicate IsNext(mask: set<int>, p: int, c: int) {
    c in mask && p < c && forall d :: d in mask && p < d ==> c <= d
  }

  ghost predicate Enabled(s: Rd, a: Action) {
    match a
    case Overload(_) => true
    case Underload(_) => true
    case Ask(i) => i !in s.agent || s.agent[i].Idle?
    case TryStart(i) => At(s, i, Asked)
    case Deliver(i) => s.work >= 0 && (i !in s.agent || s.agent[i].Idle?)
    case Push(i) => i in s.agent && s.agent[i].Visit?
    case TakeLock(i) => i in s.agent && (s.agent[i].WantLock? || s.agent[i].Visited?) && s.lock == -1
    case Look(i) => At(s, i, Entered)
    case NextCpu(i, c) => AtScan(s, i) && IsNext(s.mask, s.rtoCpu, c)
    case Exhaust(i) => AtScan(s, i) && forall d :: d in s.mask ==> d <= s.rtoCpu
    case Reread(i) => i in s.agent && s.agent[i].Read?
    case DropLock(i) => i in s.agent && s.agent[i].Leave?
    case DropStart(i) => i in s.agent && s.agent[i].Unlocked?
    case Hold(i) => i in s.agent && s.agent[i].Send?
    case Post(i) => i in s.agent && s.agent[i].Queue?
    case Release(i) => At(s, i, Put)
  }

  ghost function Move(s: Rd, i: nat, pc: Pc): Rd {
    s.(agent := s.agent[i := pc])
  }

  /** A pass over the mask begins. */
  ghost function Begin(s: Rd): Rd {
    s.(passAt := s.asks, through := s.mask, seen := {})
  }

  ghost function Do(s: Rd, a: Action): Rd
    requires Enabled(s, a)
  {
    match a
    case Overload(c) => s.(mask := s.mask + {c})
    case Underload(c) => s.(mask := s.mask - {c}, through := s.through - {c})
    case Ask(i) => Move(s, i, Asked).(asks := s.asks + 1)
    case TryStart(i) => if s.start then Move(s, i, Idle) else Move(s, i, WantLock).(start := true)
    case Deliver(i) => Move(s, i, Visit(s.work)).(work := -1)
    case Push(i) => Move(s, i, Visited).(seen := s.seen + {s.agent[i].cpu})
    case TakeLock(i) => Move(s, i, if s.agent[i].WantLock? then Entered else Scan(true)).(lock := i)
    case Look(i) => if s.rtoCpu < 0 then Begin(Move(s, i, Scan(false))) else Move(s, i, Leave(false, -1))
    case NextCpu(i, c) => Move(s, i, Leave(s.agent[i].h, c)).(rtoCpu := c)
    case Exhaust(i) => Move(s, i, Read(s.agent[i].h)).(rtoCpu := -1)
    case Reread(i) =>
      if s.loopAt % TWO32 == s.asks % TWO32 then Move(s, i, Leave(s.agent[i].h, -1))
      else Begin(Move(s, i, Scan(s.agent[i].h)).(loopAt := s.asks))
    case DropLock(i) =>
      var cpu := s.agent[i].cpu;
      Move(s, i, if !s.agent[i].h then Unlocked(cpu) else if cpu < 0 then Put else Queue(cpu)).(lock := -1)
    case DropStart(i) => Move(s, i, Send(s.agent[i].cpu)).(start := false)
    case Hold(i) =>
      if s.agent[i].cpu < 0 then Move(s, i, Idle) else Move(s, i, Queue(s.agent[i].cpu)).(refs := s.refs + 1)
    case Post(i) =>
      // irq_work_queue_on does nothing when the work is already pending
      Move(s, i, Idle).(work := if s.work < 0 then s.agent[i].cpu else s.work)
    case Release(i) => Move(s, i, Idle).(refs := s.refs - 1)
  }

  // ----- Tokens, references and critical sections

  /** The agent carries the push token: it is about to post the irq work, or is running it. */
  predicate Carries(pc: Pc) {
    match pc
    case Visit(_) => true
    case Visited => true
    case Scan(h) => h
    case Read(h) => h
    case Leave(h, cpu) => cpu >= 0
    case Unlocked(cpu) => cpu >= 0
    case Send(cpu) => cpu >= 0
    case Queue(_) => true
    case _ => false
  }

  /** The agent holds a reference on the domain. */
  predicate HasRef(pc: Pc) {
    match pc
    case Visit(_) => true
    case Visited => true
    case Scan(h) => h
    case Read(h) => h
    case Leave(h, _) => h
    case Queue(_) => true
    case Put => true
    case _ => false
  }

  predicate InLock(pc: Pc) {
    pc.Entered? || pc.Scan? || pc.Read? || pc.Leave?
  }

  predicate InStart(pc: Pc) {
    match pc
    case WantLock => true
    case Entered => true
    case Scan(h) => !h
    case Read(h) => !h
    case Leave(h, _) => !h
    case Unlocked(_) => true
    case _ => false
  }

  /** The CPU the token is on its way to, or at. */
  predicate Targets(pc: Pc, c: int) {
    match pc
    case Visit(cpu) => 0 <= cpu == c
    case Visited => c >= 0
    case Leave(_, cpu) => cpu >= 0 ==> cpu == c
    case Unlocked(cpu) => cpu >= 0 ==> cpu == c
    case Send(cpu) => cpu >= 0 ==> cpu == c
    case Queue(cpu) => 0 <= cpu == c
    case _ => true
  }

  ghost function RefHolders(s: Rd): set<nat> {
    set i | i in s.agent && HasRef(s.agent[i])
  }

  /** The token exists: the work is pending, or an agent carries it. */
  ghost predicate Token(s: Rd) {
    s.work >= 0 || exists i :: i in s.agent && Carries(s.agent[i])
  }

  /** What holds of agent `i` at `pc` when `k` has the start flag and `t` the token (-1 for nobody). */
  ghost predicate AgentOk(s: Rd, k: int, t: int, i: nat, pc: Pc) {
    && (InLock(pc) <==> s.lock == i)
    && (InStart(pc) <==> k == i)
    && (Carries(pc) <==> t == i)
    && Targets(pc, s.rtoCpu)
    && (pc.Read? ==> s.rtoCpu == -1 && s.through <= s.seen)
    && (pc == Scan(false) || pc == Read(false) ==> s.rtoCpu == -1 && t == -1 && s.work < 0)
    && (pc.Visited? || pc.Scan? ==> forall c :: c in s.through && c <= s.rtoCpu ==> c in s.seen)
  }

  ghost predicate GlobalOk(s: Rd, k: int, t: int) {
    && -1 <= s.lock && (s.lock >= 0 ==> s.lock in s.agent)
    && -1 <= k && (k >= 0 ==> k in s.agent) && (s.start <==> k >= 0)
    && -1 <= t && (t >= 0 ==> t in s.agent)
    && -1 <= s.work && (s.work >= 0 ==> s.work == s.rtoCpu && t == -1)
    && -1 <= s.rtoCpu && (s.rtoCpu >= 0 ==> s.work >= 0 || t >= 0)
    && s.through <= s.mask && (forall c :: c in s.mask ==> 0 <= c)
    && s.loopAt <= s.passAt <= s.asks
    && (s.rtoCpu >= 0 ==> forall c :: c in s.through && c < s.rtoCpu ==> c in s.seen)
  }

  ghost predicate InvWith(s: Rd, k: int, t: int) {
    GlobalOk(s, k, t) && forall i :: i in s.agent ==> AgentOk(s, k, t, i, s.agent[i])
  }

  /** Who has the start flag, and who the token, after an action. */
  ghost function Starter(s: Rd, k: int, a: Action): int
    requires Enabled(s, a)
  {
    match a
    case TryStart(i) => if s.start then k else i
    case DropStart(i) => -1
    case _ => k
  }

  ghost function Carrier(s: Rd, t: int, a: Action): int
    requires Enabled(s, a)
  {
    match a
    case Deliver(i) => i
    case NextCpu(i, _) => i
    case Reread(i) => if s.loopAt % TWO32 == s.asks % TWO32 && t == i then -1 else t
    case Post(i) => -1
    case _ => t
  }

  ghost predicate Kept(s: Rd, k: int, t: int, a: Action)
    requires Enabled(s, a)
  {
    InvWith(Do(s, a), Starter(s, k, a), Carrier(s, t, a))
  }

  /** The facts about the mover and about the token's carrier that the cases use. */
  lemma Look2(s: Rd, k: int, t: int, i: nat)
    requires InvWith(s, k, t)
    ensures i in s.agent ==> AgentOk(s, k, t, i, s.agent[i])
    ensures t >= 0 ==> t in s.agent && AgentOk(s, k, t, t, s.agent[t])
  {
  }

  lemma KeepsMask(s: Rd, k: int, t: int, a: Action)
    requires InvWith(s, k, t) && Enabled(s, a) && (a.Overload? || a.Underload?)
    ensures Kept(s, k, t, a)
  {
  }

  lemma KeepsAsk(s: Rd, k: int, t: int, a: Action)
    requires InvWith(s, k, t) && Enabled(s, a) && a.Ask?
    ensures Kept(s, k, t, a)
  {
    Look2(s, k, t, a.i);
  }

  lemma KeepsTryStart(s: Rd, k: int, t: int, a: Action)
    requires InvWith(s, k, t) && Enabled(s, a) && a.TryStart?
    ensures Kept(s, k, t, a)
  {
    Look2(s, k, t, a.i);
  }

  lemma KeepsDeliver(s: Rd, k: int, t: int, a: Action)
    requires InvWith(s, k, t) && Enabled(s, a) && a.Deliver?
    ensures Kept(s, k, t, a)
  {
    Look2(s, k, t, a.i);
  }

  lemma KeepsPush(s: Rd, k: int, t: int, a: Action)
    requires InvWith(s, k, t) && Enabled(s, a) && a.Push?
    ensures Kept(s, k, t, a)
  {
    Look2(s, k, t, a.i);
  }

  lemma KeepsTakeLock(s: Rd, k: int, t: int, a: Action)
    requires InvWith(s, k, t) && Enabled(s, a) && a.TakeLock?
    ensures Kept(s, k, t, a)
  {
    Look2(s, k, t, a.i);
  }

  lemma KeepsLook(s: Rd, k: int, t: int, a: Action)
    requires InvWith(s, k, t) && Enabled(s, a) && a.Look?
    ensures Kept(s, k, t, a)
  {
    Look2(s, k, t, a.i);
  }

  lemma KeepsNextCpu(s: Rd, k: int, t: int, a: Action)
    requires InvWith(s, k, t) && Enabled(s, a) && a.NextCpu?
    ensures Kept(s, k, t, a)
  {
    Look2(s, k, t, a.i);
  }

  lemma KeepsExhaust(s: Rd, k: int, t: int, a: Action)
    requires InvWith(s, k, t) && Enabled(s, a) && a.Exhaust?
    ensures Kept(s, k, t, a)
  {
    Look2(s, k, t, a.i);
    assert forall c :: c in s.through ==> c in s.mask && c <= s.rtoCpu;
  }

  lemma KeepsReread(s: Rd, k: int, t: int, a: Action)
    requires InvWith(s, k, t) && Enabled(s, a) && a.Reread?
    ensures Kept(s, k, t, a)
  {
    Look2(s, k, t, a.i);
  }

  lemma KeepsDropLock(s: Rd, k: int, t: int, a: Action)
    requires InvWith(s, k, t) && Enabled(s, a) && a.DropLock?
    ensures Kept(s, k, t, a)
  {
    Look2(s, k, t, a.i);
  }

  lemma KeepsDropStart(s: Rd, k: int, t: int, a: Action)
    requires InvWith(s, k, t) && Enabled(s, a) && a.DropStart?
    ensures Kept(s, k, t, a)
  {
    Look2(s, k, t, a.i);
  }

  lemma KeepsHold(s: Rd, k: int, t: int, a: Action)
    requires InvWith(s, k, t) && Enabled(s, a) && a.Hold?
    ensures Kept(s, k, t, a)
  {
    Look2(s, k, t, a.i);
  }

  lemma KeepsPost(s: Rd, k: int, t: int, a: Action)
    requires InvWith(s, k, t) && Enabled(s, a) && a.Post?
    ensures Kept(s, k, t, a)
  {
    Look2(s, k, t, a.i);
  }

  lemma KeepsRelease(s: Rd, k: int, t: int, a: Action)
    requires InvWith(s, k, t) && Enabled(s, a) && a.Release?
    ensures Kept(s, k, t, a)
  {
    Look2(s, k, t, a.i);
  }

  lemma StepKeeps(s: Rd, k: int, t: int, a: Action)
    requires InvWith(s, k, t) && Enabled(s, a)
    ensures Kept(s, k, t, a)
  {
    hide InvWith;
    match a
    case Overload(_) => KeepsMask(s, k, t, a);
    case Underload(_) => KeepsMask(s, k, t, a);
    case Ask(_) => KeepsAsk(s, k, t, a);
    case TryStart(_) => KeepsTryStart(s, k, t, a);
    case Deliver(_) => KeepsDeliver(s, k, t, a);
    case Push(_) => KeepsPush(s, k, t, a);
    case TakeLock(_) => KeepsTakeLock(s, k, t, a);
    case Look(_) => KeepsLook(s, k, t, a);
    case NextCpu(_, _) => KeepsNextCpu(s, k, t, a);
    case Exhaust(_) => KeepsExhaust(s, k, t, a);
    case Reread(_) => KeepsReread(s, k, t, a);
    case DropLock(_) => KeepsDropLock(s, k, t, a);
    case DropStart(_) => KeepsDropStart(s, k, t, a);
    case Hold(_) => KeepsHold(s, k, t, a);
    case Post(_) => KeepsPost(s, k, t, a);
    case Release(_) => KeepsRelease(s, k, t, a);
  }

  // ----- References

  ghost predicate RefsBalance(s: Rd) {
    s.refs == |RefHolders(s)| + if s.work >= 0 then 1 else 0
  }

  lemma MoveRefs(s: Rd, i: nat, pc: Pc)
    ensures var before := i in s.agent && HasRef(s.agent[i]);
            |RefHolders(Move(s, i, pc))|
            == |RefHolders(s)| - (if before then 1 else 0) + (if HasRef(pc) then 1 else 0)
  {
    var r := Move(s, i, pc);
    assert RefHolders(r) - {i} == RefHolders(s) - {i};
    assert i in RefHolders(s) ==> RefHolders(s) == RefHolders(s) - {i} + {i};
    assert i in RefHolders(r) ==> RefHolders(r) == RefHolders(r) - {i} + {i};
  }

  lemma PostIsFree(s: Rd, k: int, t: int, a: Action)
    requires InvWith(s, k, t) && Enabled(s, a)
    ensures s.work >= -1 && (a.Post? ==> s.work == -1)
  {
    if a.Post? {
      Look2(s, k, t, a.i);
    }
  }

  /** Every reference taken is held by the pending work or by one agent until it is dropped. */
  lemma RefsKeep(s: Rd, a: Action)
    requires RefsBalance(s) && Enabled(s, a) && s.work >= -1 && (a.Post? ==> s.work == -1)
    requires forall i :: i in s.agent && s.agent[i].Queue? ==> s.agent[i].cpu >= 0
    ensures RefsBalance(Do(s, a))
  {
    var r := Do(s, a);
    if a.Overload? || a.Underload? {
      assert RefHolders(r) == RefHolders(s);
    } else {
      MoveRefs(s, a.i, r.agent[a.i]);
      assert RefHolders(r) == RefHolders(Move(s, a.i, r.agent[a.i]));
    }
  }

  lemma QueuesForward(s: Rd, k: int, t: int)
    requires InvWith(s, k, t)
    ensures forall i :: i in s.agent && s.agent[i].Queue? ==> s.agent[i].cpu >= 0
  {
    forall i | i in s.agent && s.agent[i].Queue? ensures s.agent[i].cpu >= 0 {
      assert AgentOk(s, k, t, i, s.agent[i]);
    }
  }

  // ----- Runs

  ghost predicate Follows(s: Rd, a: Action, r: Rd) {
    Enabled(s, a) && r == Do(s, a)
  }

  ghost predicate Initial(s: Rd) {
    && s.asks == s.loopAt == s.passAt && !s.start && s.lock == -1 && s.rtoCpu == -1 && s.work == -1 && s.refs == 0
    && s.agent == map[] && s.through == {} && forall c :: c in s.mask ==> 0 <= c
  }

  ghost predicate IsRun(run: seq<Rd>, acts: seq<Action>) {
    && |run| == |acts| + 1 && Initial(run[0])
    && forall n :: 0 <= n < |acts| ==> Follows(run[n], acts[n], run[n + 1])
  }

  lemma {:induction false} RunKeeps(run: seq<Rd>, acts: seq<Action>, n: nat) returns (k: int, t: int)
    requires IsRun(run, acts) && n < |run|
    ensures InvWith(run[n], k, t) && RefsBalance(run[n])
  {
    hide Do; hide Enabled; hide GlobalOk; hide AgentOk; hide RefsBalance;
    if n == 0 {
      k, t := -1, -1;
      StartsWell(run[0]);
    } else {
      k, t := RunKeeps(run, acts, n - 1);
      assert Follows(run[n - 1], acts[n - 1], run[n - 1 + 1]);
      StepKeeps(run[n - 1], k, t, acts[n - 1]);
      PostIsFree(run[n - 1], k, t, acts[n - 1]);
      QueuesForward(run[n - 1], k, t);
      RefsKeep(run[n - 1], acts[n - 1]);
      k, t := Starter(run[n - 1], k, acts[n - 1]), Carrier(run[n - 1], t, acts[n - 1]);
    }
  }

  lemma StartsWell(s: Rd)
    requires Initial(s)
    ensures InvWith(s, -1, -1) && RefsBalance(s)
  {
    assert RefHolders(s) == {};
  }

  /** In every reachable state at most one agent carries a token, none does while the work is pending,
      and outside the lock `rto_cpu` is non-negative exactly while a token exists. */
  lemma OneToken(run: seq<Rd>, acts: seq<Action>, n: nat)
    requires IsRun(run, acts) && n < |run|
    ensures forall i, j | i in run[n].agent && j in run[n].agent ::
              Carries(run[n].agent[i]) && Carries(run[n].agent[j]) ==> i == j
    ensures run[n].work >= 0 ==> forall i :: i in run[n].agent ==> !Carries(run[n].agent[i])
    ensures run[n].rtoCpu >= 0 ==> Token(run[n])
    ensures run[n].lock == -1 ==> (run[n].rtoCpu >= 0 <==> Token(run[n]))
    ensures run[n].refs == |RefHolders(run[n])| + if run[n].work >= 0 then 1 else 0
  {
    var k, t := RunKeeps(run, acts, n);
    var s := run[n];
    forall i | i in s.agent && Carries(s.agent[i]) ensures t == i {
      assert AgentOk(s, k, t, i, s.agent[i]);
    }
    if t >= 0 {
      Look2(s, k, t, t);
      assert Carries(s.agent[t]);
    }
  }

  /** The irq work is never posted while it is pending, so no post is ever lost. */
  lemma NoPostIsLost(run: seq<Rd>, acts: seq<Action>, n: nat)
    requires IsRun(run, acts) && n < |acts| && acts[n].Post?
    ensures run[n].work == -1
  {
    var k, t := RunKeeps(run, acts, n);
    assert Follows(run[n], acts[n], run[n + 1]);
    Look2(run[n], k, t, acts[n].i);
  }

  // ----- Starting a chain

  /** A teller that wins the start flag gets in; one that loses it finds another teller at work. */
  lemma StartIsWon(run: seq<Rd>, acts: seq<Action>, n: nat) returns (j: nat)
    requires IsRun(run, acts) && n < |acts| && acts[n].TryStart?
    ensures At(run[n + 1], acts[n].i, if run[n].start then Idle else WantLock)
    ensures run[n + 1].start && j in run[n + 1].agent && InStart(run[n + 1].agent[j])
    ensures j == acts[n].i <==> !run[n].start
  {
    var k, t := RunKeeps(run, acts, n);
    assert Follows(run[n], acts[n], run[n + 1]);
    var i := acts[n].i;
    Look2(run[n], k, t, i);
    j := if run[n].start then k else i;
  }

  ghost predicate Busy(s: Rd) {
    exists c :: c in s.mask
  }

  /** Teller `i` is on its way through the lock: it has yet to look at `rto_cpu`, is about to search the mask,
      or leaves with `rto_cpu` set, by itself or by the chain it found. */
  ghost predicate Inside(s: Rd, i: nat) {
    i in s.agent && match s.agent[i]
                    case WantLock => true
                    case Entered => true
                    case Scan(h) => !h
                    case Leave(h, _) => !h && s.rtoCpu >= 0
                    case _ => false
  }

  lemma InsideStays(s: Rd, k: int, t: int, i: nat, a: Action)
    requires InvWith(s, k, t) && Enabled(s, a) && Inside(s, i) && a != DropLock(i)
    requires s.lock == i ==> Busy(s)
    ensures Inside(Do(s, a), i)
  {
    Look2(s, k, t, i);
    if !a.Overload? && !a.Underload? {
      Look2(s, k, t, a.i);
    }
    if At(s, i, Scan(false)) {
      SearchSucceeds(s, k, t, i);
    }
  }

  /** A teller's search of a mask that is not empty cannot run out. */
  lemma SearchSucceeds(s: Rd, k: int, t: int, i: nat)
    requires InvWith(s, k, t) && At(s, i, Scan(false))
    ensures s.lock == i && (Busy(s) ==> !Enabled(s, Exhaust(i)))
  {
    Look2(s, k, t, i);
    if Busy(s) {
      var c :| c in s.mask;
      assert c > s.rtoCpu;
    }
  }

  lemma InsideNext(run: seq<Rd>, acts: seq<Action>, n: nat, i: nat)
    requires IsRun(run, acts) && n < |acts| && Inside(run[n], i) && acts[n] != DropLock(i)
    requires run[n].lock == i ==> Busy(run[n])
    ensures Inside(run[n + 1], i)
  {
    hide InvWith; hide Do; hide Enabled; hide Inside; hide RefsBalance; hide Initial; hide Busy;
    var k, t := RunKeeps(run, acts, n);
    assert Follows(run[n], acts[n], run[n + 1]);
    InsideStays(run[n], k, t, i, acts[n]);
  }

  /** From `m` to `n` teller `i` does not release the lock, and the mask is not empty while it holds it. */
  ghost predicate Lasting(run: seq<Rd>, acts: seq<Action>, m: nat, n: nat, i: nat)
    requires n <= |acts| < |run|
  {
    forall j :: m <= j < n ==> acts[j] != DropLock(i) && (run[j].lock == i ==> Busy(run[j]))
  }

  lemma {:induction false} StillInside(run: seq<Rd>, acts: seq<Action>, m: nat, n: nat, i: nat)
    requires IsRun(run, acts) && m <= n <= |acts| && Inside(run[m], i) && Lasting(run, acts, m, n, i)
    ensures Inside(run[n], i)
  {
    hide Inside; hide Busy;
    if m < n {
      var p := n - 1;
      StillInside(run, acts, m, p, i);
      assert acts[p] != DropLock(i);
      InsideNext(run, acts, p, i);
    }
  }

  /** A teller that has won the start flag, and finds the mask never empty while it holds `rto_lock`, does not
      release the lock without a chain under way: `rto_cpu` is set and a push token exists. */
  lemma TellerStarts(run: seq<Rd>, acts: seq<Action>, m: nat, n: nat, i: nat)
    requires IsRun(run, acts) && m <= n < |acts| && acts[n] == DropLock(i)
    requires At(run[m], i, WantLock) || At(run[m], i, Entered)
    requires Lasting(run, acts, m, n, i)
    ensures run[n + 1].lock == -1 && run[n + 1].rtoCpu >= 0 && Token(run[n + 1])
  {
    StillInside(run, acts, m, n, i);
    assert Follows(run[n], acts[n], run[n + 1]);
    OneToken(run, acts, n + 1);
  }

  /** Teller `i` leaves with CPU `c` and has not posted yet. */
  ghost predicate Bound(s: Rd, i: nat, c: int) {
    i in s.agent && s.agent[i] in {Leave(false, c), Unlocked(c), Send(c), Queue(c)}
  }

  /** What such a teller does next. */
  ghost function Onward(s: Rd, i: nat): Action
    requires i in s.agent
  {
    match s.agent[i]
    case Leave(_, _) => DropLock(i)
    case Unlocked(_) => DropStart(i)
    case Send(_) => Hold(i)
    case _ => Post(i)
  }

  lemma OthersPass(s: Rd, i: nat, c: int, a: Action)
    requires Bound(s, i, c) && c >= 0 && Enabled(s, a) && a != Onward(s, i)
    ensures i in Do(s, a).agent && Do(s, a).agent[i] == s.agent[i]
  {
  }

  lemma OnwardMoves(s: Rd, i: nat, c: int)
    requires Bound(s, i, c) && c >= 0
    ensures Enabled(s, Onward(s, i))
    ensures Onward(s, i) != Post(i) ==> i in Do(s, Onward(s, i)).agent && Do(s, Onward(s, i)).agent[i] != s.agent[i]
    ensures Onward(s, i) != Post(i) ==> Bound(Do(s, Onward(s, i)), i, c)
  {
  }

  /** It never waits, and nobody else can turn it back. */
  lemma BoundStays(s: Rd, i: nat, c: int, a: Action)
    requires Bound(s, i, c) && c >= 0
    ensures Enabled(s, Onward(s, i))
    ensures Enabled(s, a) && a != Post(i) ==> Bound(Do(s, a), i, c)
  {
    hide Do;
    OnwardMoves(s, i, c);
    if Enabled(s, a) && a != Onward(s, i) {
      OthersPass(s, i, c, a);
    }
  }

  /** Only its own steps move it on, and each does. */
  lemma BoundMoves(s: Rd, i: nat, c: int, a: Action)
    requires Bound(s, i, c) && c >= 0
    ensures Enabled(s, Onward(s, i))
    ensures Enabled(s, a) && a != Onward(s, i) ==> i in Do(s, a).agent && Do(s, a).agent[i] == s.agent[i]
    ensures Onward(s, i) != Post(i) ==> i in Do(s, Onward(s, i)).agent && Do(s, Onward(s, i)).agent[i] != s.agent[i]
  {
    hide Do;
    OnwardMoves(s, i, c);
    if Enabled(s, a) && a != Onward(s, i) {
      OthersPass(s, i, c, a);
    }
  }

  lemma {:induction false} StillBound(run: seq<Rd>, acts: seq<Action>, m: nat, n: nat, i: nat, c: int)
    requires IsRun(run, acts) && m <= n < |run| && Bound(run[m], i, c) && c >= 0
    requires forall j :: m <= j < n ==> acts[j] != Post(i)
    ensures Bound(run[n], i, c)
  {
    if m < n {
      hide Do; hide Enabled; hide Bound;
      StillBound(run, acts, m, n - 1, i, c);
      assert Follows(run[n - 1], acts[n - 1], run[n - 1 + 1]);
      BoundStays(run[n - 1], i, c, acts[n - 1]);
    }
  }

  /** A teller that leaves with a CPU posts the irq work to that CPU. */
  lemma TellerPosts(run: seq<Rd>, acts: seq<Action>, m: nat, n: nat, i: nat, c: int)
    requires IsRun(run, acts) && m <= n < |acts| && At(run[m], i, Leave(false, c)) && c >= 0
    requires acts[n] == Post(i) && forall j :: m <= j < n ==> acts[j] != Post(i)
    ensures run[n].work == -1 && run[n + 1].work == c
  {
    StillBound(run, acts, m, n, i, c);
    NoPostIsLost(run, acts, n);
    assert Follows(run[n], acts[n], run[n + 1]);
  }

  // ----- Ending one

  /** A pass over the mask begins with action `j`. */
  ghost predicate BeginsAt(run: seq<Rd>, acts: seq<Action>, j: nat)
    requires j < |acts| && j < |run|
  {
    || (acts[j].Look? && run[j].rtoCpu < 0)
    || (acts[j].Reread? && run[j].loopAt % TWO32 != run[j].asks % TWO32)
  }

  /** CPU `c` was in the mask in every state from `m` to `n`. */
  ghost predicate Throughout(run: seq<Rd>, m: nat, n: nat, c: int)
    requires n < |run|
  {
    forall j :: m <= j <= n ==> c in run[j].mask
  }

  /** Some handler ran on CPU `c` and pushed its tasks between `m` and `n`. */
  ghost predicate Pushed(run: seq<Rd>, acts: seq<Action>, m: nat, n: nat, c: int)
    requires n <= |acts| < |run|
  {
    exists j :: m <= j < n && PushedAt(run[j], acts[j], c)
  }

  ghost predicate PushedAt(s: Rd, a: Action, c: int) {
    a.Push? && a.i in s.agent && s.agent[a.i] == Visit(c)
  }

  ghost predicate PassFrom(run: seq<Rd>, acts: seq<Action>, m: nat, n: nat)
    requires m <= n <= |acts| && |acts| < |run|
  {
    && run[n].passAt == run[m].asks
    && (forall c :: Throughout(run, m, n, c) ==> c in run[n].through)
    && (forall c :: c in run[n].seen ==> Pushed(run, acts, m, n, c))
  }

  /** Before the first pass nobody searches the mask and there is no token. */
  ghost predicate Quiet(s: Rd) {
    && s.rtoCpu == -1 && s.work < 0
    && forall i :: i in s.agent ==> !s.agent[i].Scan? && !s.agent[i].Read? && !Carries(s.agent[i])
  }

  lemma QuietStays(s: Rd, a: Action)
    requires Quiet(s) && Enabled(s, a) && !a.Look?
    ensures Quiet(Do(s, a))
  {
  }

  lemma PassStep(run: seq<Rd>, acts: seq<Action>, m: nat, n: nat)
    requires IsRun(run, acts) && m <= n < |acts| && PassFrom(run, acts, m, n) && !BeginsAt(run, acts, n)
    ensures PassFrom(run, acts, m, n + 1)
  {
    assert Follows(run[n], acts[n], run[n + 1]);
    var r := run[n + 1];
    forall c | Throughout(run, m, n + 1, c) ensures c in r.through {
      assert Throughout(run, m, n, c) && c in run[n + 1].mask;
    }
    forall c | c in r.seen ensures Pushed(run, acts, m, n + 1, c) {
      if c in run[n].seen {
        assert Pushed(run, acts, m, n, c);
      } else {
        assert PushedAt(run[n], acts[n], c);
      }
    }
  }

  lemma PassBegins(run: seq<Rd>, acts: seq<Action>, n: nat)
    requires IsRun(run, acts) && n < |acts| && BeginsAt(run, acts, n)
    ensures PassFrom(run, acts, n + 1, n + 1)
  {
    assert Follows(run[n], acts[n], run[n + 1]);
    var m := n + 1;
    forall c | Throughout(run, m, m, c) ensures c in run[m].through {
      assert c in run[m].mask;
    }
  }

  /** Where the pass in progress began, if one has. */
  lemma {:induction false} PassHistory(run: seq<Rd>, acts: seq<Action>, n: nat) returns (m: nat)
    requires IsRun(run, acts) && n < |run|
    ensures m <= n && (Quiet(run[n]) || PassFrom(run, acts, m, n))
  {
    if n == 0 {
      m := 0;
    } else {
      hide Do; hide Enabled; hide PassFrom;
      m := PassHistory(run, acts, n - 1);
      assert Follows(run[n - 1], acts[n - 1], run[n - 1 + 1]);
      if BeginsAt(run, acts, n - 1) {
        PassBegins(run, acts, n - 1);
        m := n;
      } else if PassFrom(run, acts, m, n - 1) {
        PassStep(run, acts, m, n - 1);
      } else {
        QuietLook(run[n - 1], acts[n - 1]);
      }
    }
  }

  lemma QuietLook(s: Rd, a: Action)
    requires Quiet(s) && Enabled(s, a) && (a.Look? ==> s.rtoCpu >= 0)
    ensures Quiet(Do(s, a))
  {
    assert !a.Look?;
    QuietStays(s, a);
  }

  /** When a search of the mask ends with no CPU, every CPU that was in the mask throughout the last pass, from
      state `m` on, had its tasks pushed in it; and unless 2^32 requests fell between two looks at the counter,
      no request came after the pass began. */
  lemma StopMeansVisited(run: seq<Rd>, acts: seq<Action>, n: nat, i: nat) returns (m: nat)
    requires IsRun(run, acts) && n < |acts| && i in run[n].agent && i in run[n + 1].agent
    requires run[n].agent[i].Scan? || run[n].agent[i].Read?
    requires run[n + 1].agent[i].Leave? && run[n + 1].agent[i].cpu < 0
    ensures m <= n && forall c :: Throughout(run, m, n, c) ==> Pushed(run, acts, m, n, c)
    ensures run[n].asks - run[n].loopAt < TWO32 ==> run[m].asks == run[n].asks
  {
    var k, t := RunKeeps(run, acts, n);
    var s := run[n];
    assert Follows(s, acts[n], run[n + 1]);
    Look2(s, k, t, i);
    assert acts[n] == Reread(i) && s.loopAt % TWO32 == s.asks % TWO32;
    m := PassHistory(run, acts, n);
    if s.asks - s.loopAt < TWO32 {
      SameRegister(s.loopAt, s.asks);
    }
  }

  ghost function Requests(acts: seq<Action>): nat {
    if acts == [] then 0 else Requests(acts[..|acts| - 1]) + if acts[|acts| - 1].Ask? then 1 else 0
  }

  /** The counter counts the requests. */
  lemma {:induction false} RequestsCounted(run: seq<Rd>, acts: seq<Action>, n: nat)
    requires IsRun(run, acts) && n < |run|
    ensures run[n].asks == run[0].asks + Requests(acts[..n])
  {
    if n > 0 {
      RequestsCounted(run, acts, n - 1);
      assert Follows(run[n - 1], acts[n - 1], run[n - 1 + 1]);
      assert acts[..n][..n - 1] == acts[..n - 1];
    }
  }

  /** The look at the counter in step `m` did not end the search. */
  ghost predicate Repeats(run: seq<Rd>, acts: seq<Action>, m: nat)
    requires m < |acts| < |run|
  {
    acts[m].Reread? && AtScan(run[m + 1], acts[m].i)
  }

  /** Without a request since, the next look finds the counter as the last one left it. */
  lemma {:induction false} NoneSince(run: seq<Rd>, acts: seq<Action>, m: nat, n: nat)
    requires IsRun(run, acts) && m < n <= |acts| && Repeats(run, acts, m)
    requires forall k :: m < k < n ==> !acts[k].Ask?
    ensures run[n].loopAt == run[n].asks
  {
    assert Follows(run[n - 1], acts[n - 1], run[n - 1 + 1]);
    if n > m + 1 {
      NoneSince(run, acts, m, n - 1);
    }
  }

  lemma LookEnds(s: Rd, a: Action)
    requires Enabled(s, a) && a.Reread? && AtScan(Do(s, a), a.i)
    ensures s.loopAt != s.asks
  {
  }

  /** A search goes round again, after it has done so once, only for a request made in between: a chain ends
      when the requests do. */
  lemma RepeatMeansAsked(run: seq<Rd>, acts: seq<Action>, m: nat, n: nat) returns (k: nat)
    requires IsRun(run, acts) && m < n < |acts| && Repeats(run, acts, m) && Repeats(run, acts, n)
    ensures m < k < n && acts[k].Ask?
  {
    assert Follows(run[n], acts[n], run[n + 1]);
    LookEnds(run[n], acts[n]);
    if forall k :: m < k < n ==> !acts[k].Ask? {
      NoneSince(run, acts, m, n);
      assert false;
    }
    k :| m < k < n && acts[k].Ask?;
  }

  /** CPU `c` is overloaded: the last that was said of it, or what held before. */
  ghost predicate Overloaded(acts: seq<Action>, c: nat, before: bool) {
    if acts == [] then before
    else
      var a := acts[|acts| - 1];
      a == Overload(c) || (a != Underload(c) && Overloaded(acts[..|acts| - 1], c, before))
  }

  /** The mask holds the overloaded CPUs. */
  lemma {:induction false} MaskFollows(run: seq<Rd>, acts: seq<Action>, n: nat, c: nat)
    requires IsRun(run, acts) && n < |run|
    ensures c in run[n].mask <==> Overloaded(acts[..n], c, c in run[0].mask)
  {
    if n > 0 {
      MaskFollows(run, acts, n - 1, c);
      assert Follows(run[n - 1], acts[n - 1], run[n - 1 + 1]);
      assert acts[..n][..n - 1] == acts[..n - 1];
    }
  }

  lemma SameRegister(a: nat, b: nat)
    requires a <= b < a + TWO32 && a % TWO32 == b % TWO32
    ensures a == b
  {
    assert b - a == (b / TWO32 - a / TWO32) * TWO32;
  }
}
