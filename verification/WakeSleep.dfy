/** The sleep, wake-up, switch and migration protocol of one task `p` among any number of CPUs,
    wakers and migrators, as interleaved steps under sequential consistency. All other tasks appear
    only through the CPUs and the run-queue locks they occupy. */
module WakeSleep {

  /** `p->state` and `p->on_rq`. */
  datatype TaskState = Running | Sleeping | Waking
  datatype OnRq = Off | Queued | Migrating

  /** Where `p` stands in the documented wait loop. */
  datatype LoopPc = SetState | Test | CallSched | InSched | Finish | Exited

  /** Where `__schedule` stands on one CPU. */
  datatype SchedPc =
    | Idle
    | Locked(preempt: bool)
    | Dequeued   // deactivate_task(p) done, p->on_rq still set
    | Decided    // about to pick
    | Picked     // rq->curr = p, on_cpu not yet set
    | Switching  // p switched out, on_cpu not yet cleared
    | Done

  /** Where the holder of `p->pi_lock` stands in `try_to_wake_up`. */
  datatype Phase =
    | Check | ReadOnRq
    | RemoteCpu | RemoteLock(r: nat) | RemoteCheck(r: nat) | RemoteSpin
    | RemoteDo(r: nat) | RemoteUnlock(r: nat, ok: bool)
    | WaitCpu | SetWaking | Select | Enqueue
    | LocalLock | LocalAct(n: nat)
    | Unlock

  /** Who holds `p->pi_lock`. A waker carries the round whose condition it set, or -1. */
  datatype Pi = PiFree | ByMig | Waker(round: int, ph: Phase)

  /** Where `p` is on its way through a wake list and `sched_ttwu_pending`. */
  datatype Pend = NoPend | Listed(c: nat) | Grabbed(c: nat) | Activating(c: nat, n: nat)

  /** Where a migrator that marks `p` TASK_ON_RQ_MIGRATING stands: `move_queued_task`, or a load
      balancer that does the same without `pi_lock`. */
  datatype Mig = NoMig | MDeq(r: nat) | MMove(r: nat) | MDrop(r: nat) | MWant | MEnq | MOn | MDone

  /** Where a push with both run queues locked stands: `push_rt_task`. */
  datatype Push =
    | NoPush
    | Have(src: nat, dst: nat) | Out(src: nat, dst: nat) | Moved(src: nat, dst: nat) | In(src: nat, dst: nat)

  datatype Holder = Free | Sched | ByPi | ByPend | ByMigrator | ByPush | Other

  /** `queues`: the CPUs whose run queue lists `p`; `curr`: those with `rq->curr == p`; `ranOn`: the
      CPU `p` was last switched to. `waiting`: the rounds of wakers wanting `pi_lock`; `done`: those of
      wakers that have returned. */
  datatype State = State(state: TaskState, onRq: OnRq, onCpu: bool, cpu: nat, ranOn: nat,
                         queues: set<nat>, curr: set<nat>, lock: map<nat, Holder>, sched: map<nat, SchedPc>,
                         me: LoopPc, cond: bool, round: nat,
                         waiting: multiset<int>, done: set<int>, pi: Pi, pend: Pend, mig: Mig, push: Push)

  ghost function L(s: State, c: nat): Holder {
    if c in s.lock then s.lock[c] else Free
  }

  ghost function Sc(s: State, c: nat): SchedPc {
    if c in s.sched then s.sched[c] else Idle
  }

  ghost function SetLock(s: State, c: nat, h: Holder): State {
    s.(lock := s.lock[c := h])
  }

  ghost function SetSched(s: State, c: nat, pc: SchedPc): State {
    s.(sched := s.sched[c := pc])
  }

  ghost predicate RunsAt(s: State, c: nat) {
    c in s.curr && Sc(s, c) == Idle
  }

  // ----- Steps of the task, in the wait loop

  datatype TaskAct = DoSet | DoTest | DoReturn | DoFinish | DoAgain

  ghost predicate TaskCan(s: State, c: nat, a: TaskAct) {
    && RunsAt(s, c)
    && match a
       case DoSet => s.me == SetState
       case DoTest => s.me == Test
       case DoReturn => s.me == InSched
       case DoFinish => s.me == Finish
       case DoAgain => s.me == Exited
  }

  ghost function TaskDo(s: State, a: TaskAct): State {
    match a
    case DoSet => s.(state := Sleeping, me := Test)
    case DoTest => s.(me := if s.cond then Finish else CallSched)
    case DoReturn => s.(me := SetState)
    case DoFinish => s.(state := Running, me := Exited)
    case DoAgain => s.(round := s.round + 1, cond := false, me := SetState)
  }

  // ----- Steps of __schedule on CPU c

  datatype SchedAct =
    | Take(preempt: bool) | Stay | Signal | Deactivate | ClearOnRq
    | PickP | PickOther | Prepare | FinishSwitch | Leave

  ghost predicate MustSleep(s: State, c: nat) {
    c in s.curr && Sc(s, c) == Locked(false) && s.state != Running
  }

  ghost predicate SchedCan(s: State, c: nat, a: SchedAct) {
    match a
    case Take(preempt) => Sc(s, c) == Idle && L(s, c) == Free && (c in s.curr && !preempt ==> s.me == CallSched)
    case Stay => Sc(s, c).Locked? && !MustSleep(s, c)
    case Signal => MustSleep(s, c)
    case Deactivate => MustSleep(s, c)
    case ClearOnRq => Sc(s, c) == Dequeued
    case PickP => Sc(s, c) == Decided && c in s.queues
    case PickOther => Sc(s, c) == Decided
    case Prepare => Sc(s, c) == Picked
    case FinishSwitch => Sc(s, c) == Switching
    case Leave => Sc(s, c) == Done
  }

  ghost function SchedDo(s: State, c: nat, a: SchedAct): State {
    match a
    case Take(preempt) =>
      SetSched(SetLock(s, c, Sched), c, Locked(preempt)).(me := if c in s.curr && !preempt then InSched else s.me)
    case Stay => SetSched(s, c, Decided)
    case Signal => SetSched(s, c, Decided).(state := Running)
    case Deactivate => SetSched(s, c, Dequeued).(queues := s.queues - {c})
    case ClearOnRq => SetSched(s, c, Decided).(onRq := Off)
    case PickP =>
      if c in s.curr then SetSched(s, c, Done) else SetSched(s, c, Picked).(curr := s.curr + {c}, ranOn := c)
    case PickOther =>
      if c in s.curr then SetSched(s, c, Switching).(curr := s.curr - {c}) else SetSched(s, c, Done)
    case Prepare => SetSched(s, c, Done).(onCpu := true)
    case FinishSwitch => SetSched(s, c, Done).(onCpu := false)
    case Leave => SetSched(SetLock(s, c, Free), c, Idle)
  }

  // ----- Steps of the wakers

  datatype WakeAct = SetCond | Spurious(round: int) | TakePi(round: int) | Go | Choose(c: nat) | Remote | Local

  ghost predicate WakeCan(s: State, a: WakeAct) {
    match a
    case SetCond => true
    case Spurious(r) => r < 0
    case TakePi(r) => s.pi.PiFree? && r in s.waiting
    case Choose(c) => s.pi.Waker? && s.pi.ph.Select?
    case Remote => s.pi.Waker? && s.pi.ph.Enqueue?
    case Local => s.pi.Waker? && s.pi.ph.Enqueue?
    case Go =>
      && s.pi.Waker? && !s.pi.ph.Select? && !s.pi.ph.Enqueue?
      && (s.pi.ph.RemoteLock? ==> L(s, s.pi.ph.r) == Free)
      && (s.pi.ph.RemoteSpin? ==> s.onRq != Migrating)
      && (s.pi.ph.WaitCpu? ==> !s.onCpu)
      && (s.pi.ph.LocalLock? ==> L(s, s.cpu) == Free)
  }

  ghost function To(s: State, ph: Phase): State
    requires s.pi.Waker?
  {
    s.(pi := Waker(s.pi.round, ph))
  }

  ghost function Go_(s: State): State
    requires s.pi.Waker?
  {
    match s.pi.ph
    case Check => To(s, if s.state == Sleeping then ReadOnRq else Unlock)
    case ReadOnRq => To(s, if s.onRq != Off then RemoteCpu else WaitCpu)
    case RemoteCpu => To(s, RemoteLock(s.cpu))
    case RemoteLock(r) => To(SetLock(s, r, ByPi), RemoteCheck(r))
    case RemoteCheck(r) =>
      if s.cpu == r && s.onRq != Migrating then To(s, RemoteDo(r)) else To(SetLock(s, r, Free), RemoteSpin)
    case RemoteSpin => To(s, RemoteCpu)
    case RemoteDo(r) =>
      if s.onRq == Queued then To(s, RemoteUnlock(r, true)).(state := Running) else To(s, RemoteUnlock(r, false))
    case RemoteUnlock(r, ok) => To(SetLock(s, r, Free), if ok then Unlock else WaitCpu)
    case WaitCpu => To(s, SetWaking)
    case SetWaking => To(s, Select).(state := Waking)
    case LocalLock => To(SetLock(s, s.cpu, ByPi), LocalAct(0))
    case LocalAct(n) =>
      if n == 0 then To(s, LocalAct(1)).(queues := s.queues + {s.cpu})
      else if n == 1 then To(s, LocalAct(2)).(onRq := Queued)
      else if n == 2 then To(s, LocalAct(3)).(state := Running)
      else To(SetLock(s, s.cpu, Free), Unlock)
    case Unlock => s.(pi := PiFree, done := s.done + {s.pi.round})
    case _ => s
  }

  ghost function WakeDo(s: State, a: WakeAct): State
    requires WakeCan(s, a)
  {
    match a
    case SetCond => s.(cond := true, waiting := s.waiting + multiset{s.round as int})
    case Spurious(r) => s.(waiting := s.waiting + multiset{r})
    case TakePi(r) => s.(waiting := s.waiting - multiset{r}, pi := Waker(r, Check))
    case Choose(c) => To(s, Enqueue).(cpu := c)
    case Remote => To(s, Unlock).(pend := Listed(s.cpu))
    case Local => To(s, LocalLock)
    case Go => Go_(s)
  }

  // ----- Steps of sched_ttwu_pending, of migrators and of other lock users

  datatype OtherAct =
    | PendGrab | PendLock | PendGo
    | MigBegin(r: nat, withPi: bool) | MigGo(c: nat)
    | PushBegin(src: nat, dst: nat) | PushGo
    | LockOther(c: nat) | UnlockOther(c: nat)

  ghost predicate OtherCan(s: State, a: OtherAct) {
    match a
    case PendGrab => s.pend.Listed?
    case PendLock => s.pend.Grabbed? && L(s, s.pend.c) == Free
    case PendGo => s.pend.Activating?
    case MigBegin(r, withPi) =>
      && s.mig.NoMig? && L(s, r) == Free && (withPi ==> s.pi.PiFree?)
      && s.cpu == r && s.onRq == Queued && !s.onCpu
    case MigGo(_) => !s.mig.NoMig? && (s.mig.MWant? ==> L(s, s.cpu) == Free)
    case PushBegin(src, dst) =>
      && s.push.NoPush? && src != dst && L(s, src) == Free && L(s, dst) == Free
      && s.cpu == src && s.onRq == Queued && !s.onCpu
    case PushGo => !s.push.NoPush?
    case LockOther(c) => L(s, c) == Free
    case UnlockOther(c) => L(s, c) == Other
  }

  ghost function OtherDo(s: State, a: OtherAct): State
    requires OtherCan(s, a)
  {
    match a
    case PendGrab => s.(pend := Grabbed(s.pend.c))
    case PendLock => SetLock(s, s.pend.c, ByPend).(pend := Activating(s.pend.c, 0))
    case PendGo =>
      var c, n := s.pend.c, s.pend.n;
      if n == 0 then s.(pend := Activating(c, 1), queues := s.queues + {c})
      else if n == 1 then s.(pend := Activating(c, 2), onRq := Queued)
      else if n == 2 then s.(pend := Activating(c, 3), state := Running)
      else SetLock(s, c, Free).(pend := NoPend)
    case MigBegin(r, withPi) =>
      SetLock(s, r, ByMigrator).(mig := MDeq(r), onRq := Migrating, pi := if withPi then ByMig else s.pi)
    case MigGo(c) =>
      (match s.mig
       case MDeq(r) => s.(mig := MMove(r), queues := s.queues - {r})
       case MMove(r) => s.(mig := MDrop(r), cpu := c)
       case MDrop(r) => SetLock(s, r, Free).(mig := MWant)
       case MWant => SetLock(s, s.cpu, ByMigrator).(mig := MEnq)
       case MEnq => s.(mig := MOn, queues := s.queues + {s.cpu})
       case MOn => s.(mig := MDone, onRq := Queued)
       case _ => SetLock(s, s.cpu, Free).(mig := NoMig, pi := if s.pi.ByMig? then PiFree else s.pi))
    case PushBegin(src, dst) => SetLock(SetLock(s, src, ByPush), dst, ByPush).(push := Have(src, dst))
    case PushGo =>
      (match s.push
       case Have(src, dst) => s.(push := Out(src, dst), queues := s.queues - {src})
       case Out(src, dst) => s.(push := Moved(src, dst), cpu := dst)
       case Moved(src, dst) => s.(push := In(src, dst), queues := s.queues + {dst})
       case In(src, dst) => SetLock(SetLock(s, src, Free), dst, Free).(push := NoPush)
       case NoPush => s)
    case LockOther(c) => SetLock(s, c, Other)
    case UnlockOther(c) => SetLock(s, c, Free)
  }

  ghost predicate Next(s: State, r: State) {
    || (exists c, a :: TaskCan(s, c, a) && r == TaskDo(s, a))
    || (exists c, a :: SchedCan(s, c, a) && r == SchedDo(s, c, a))
    || (exists a :: WakeCan(s, a) && r == WakeDo(s, a))
    || (exists a :: OtherCan(s, a) && r == OtherDo(s, a))
  }

  // ----- The invariant

  ghost predicate PiHolds(s: State, c: nat) {
    s.pi.Waker? && match s.pi.ph
                   case RemoteCheck(r) => c == r
                   case RemoteDo(r) => c == r
                   case RemoteUnlock(r, _) => c == r
                   case LocalAct(_) => c == s.cpu
                   case _ => false
  }

  ghost predicate MigHolds(s: State, c: nat) {
    match s.mig
    case MDeq(r) => c == r
    case MMove(r) => c == r
    case MDrop(r) => c == r
    case MEnq => c == s.cpu
    case MOn => c == s.cpu
    case MDone => c == s.cpu
    case _ => false
  }

  /** Each lock word names the agent whose program counter says it holds the lock. */
  ghost predicate LockOk(s: State, c: nat) {
    && (L(s, c) == Sched <==> Sc(s, c) != Idle)
    && (L(s, c) == ByPi <==> PiHolds(s, c))
    && (L(s, c) == ByPend <==> s.pend.Activating? && s.pend.c == c)
    && (L(s, c) == ByMigrator <==> MigHolds(s, c))
    && (L(s, c) == ByPush <==> !s.push.NoPush? && (c == s.push.src || c == s.push.dst))
  }

  /** What one CPU's scheduler may rely on. */
  ghost predicate SchedOk(s: State, c: nat) {
    var pc := Sc(s, c);
    && (c in s.curr ==> s.cpu == c && s.ranOn == c && (s.onCpu <==> !pc.Picked?))
    && (c in s.curr && !pc.Dequeued? && !pc.Decided? ==> s.onRq == Queued && s.queues == {c})
    && (c in s.curr && pc == Locked(false) ==> s.me == InSched)
    && (c in s.curr && pc.Decided? ==>
          || (s.onRq == Queued && s.queues == {c})
          || (s.onRq == Off && s.queues == {} && s.me == InSched && s.state != Running))
    && (pc.Dequeued? ==> c in s.curr && s.onRq == Queued && s.queues == {} && s.state == Sleeping && s.me == InSched)
    && (pc.Picked? ==> c in s.curr)
    && (pc.Switching? ==> s.onCpu && s.ranOn == c && s.curr == {})
  }

  /** A sleeper inside the scheduler is off its queue, or its scheduler is about to take it off. */
  ghost predicate AsleepOk(s: State) {
    s.me == InSched && s.state == Sleeping ==>
      || (s.queues == {} && s.onRq == Off)
      || (s.ranOn in s.curr && Sc(s, s.ranOn).Dequeued? && s.queues == {})
      || (s.ranOn in s.curr && Sc(s, s.ranOn) == Locked(false))
  }

  /** Where `p` is queued, against `on_rq` and the agents that move it. */
  ghost predicate PlaceOk(s: State) {
    && s.queues <= {s.cpu}
    && (s.onCpu ==> s.cpu == s.ranOn && (s.ranOn in s.curr || Sc(s, s.ranOn).Switching?))
    && (s.onRq == Queued ==> s.queues == {s.cpu} || Sc(s, s.cpu).Dequeued? || s.push.Out? || s.push.Moved?)
    && (s.onRq == Off ==>
          && (s.queues == {} || (s.pi.Waker? && s.pi.ph == LocalAct(1)) || (s.pend.Activating? && s.pend.n == 1))
          && s.me == InSched && s.state != Running)
    && AsleepOk(s)
  }

  ghost predicate MigOk(s: State) {
    && (s.onRq == Migrating <==> !s.mig.NoMig? && !s.mig.MDone?)
    && (!s.mig.NoMig? ==> !s.onCpu && s.curr == {} && s.push.NoPush? && s.pend.NoPend?)
    && (s.pi.ByMig? ==> !s.mig.NoMig?)
    && (match s.mig
        case MDeq(r) => s.cpu == r && s.queues == {r}
        case MOn => s.queues == {s.cpu}
        case MDone => s.queues == {s.cpu} && s.onRq == Queued
        case NoMig => true
        case _ => s.queues == {})
    && (match s.push
        case NoPush => true
        case Have(src, dst) => s.cpu == src && s.queues == {src}
        case Out(src, dst) => s.cpu == src && s.queues == {}
        case Moved(src, dst) => s.cpu == dst && s.queues == {}
        case In(src, dst) => s.cpu == dst && s.queues == {dst})
    && (!s.push.NoPush? ==> s.push.src != s.push.dst && s.onRq == Queued && !s.onCpu && s.curr == {} && s.pend.NoPend?)
  }

  /** The waker has found `p` off its run queue. */
  predicate Slow(ph: Phase) {
    ph.WaitCpu? || ph.SetWaking? || ph.Select? || ph.Enqueue? || ph.LocalLock? || ph == LocalAct(0)
    || (ph.RemoteUnlock? && !ph.ok)
  }

  ghost predicate WakingNow(s: State) {
    || (s.pi.Waker? && (s.pi.ph.Select? || s.pi.ph.Enqueue? || s.pi.ph.LocalLock? ||
       (s.pi.ph.LocalAct? && s.pi.ph.n <= 2)))
    || (s.pend.Listed? || s.pend.Grabbed? || (s.pend.Activating? && s.pend.n <= 2))
  }

  /** The waker has seen `p` leave its CPU, and has yet to unlock. */
  ghost predicate Chosen(ph: Phase) {
    ph.SetWaking? || ph.Select? || ph.Enqueue? || ph.LocalLock? || ph.LocalAct?
  }

  /** The waker has done all it has to. */
  ghost predicate Woken(ph: Phase) {
    ph.Unlock? || (ph.RemoteUnlock? && ph.ok)
  }

  ghost predicate WakeOk(s: State) {
    && (s.state == Waking <==> WakingNow(s))
    && (s.pi.Waker? && s.pi.ph.LocalAct? ==> s.pi.ph.n <= 3)
    && (s.pend.Activating? ==> s.pend.n <= 3)
    && (s.pi.Waker? && !s.pi.ph.Check? && !s.pi.ph.Unlock? ==> s.pend.NoPend?)
    && (s.pi.Waker? && Slow(s.pi.ph) ==> s.onRq == Off && s.queues == {} && s.push.NoPush?)
    && (s.pi.Waker? && (s.pi.ph.WaitCpu? || s.pi.ph.SetWaking? || (s.pi.ph.RemoteUnlock? && !s.pi.ph.ok)) ==>
       s.state == Sleeping)
    && (s.pi.Waker? && Chosen(s.pi.ph) ==> !s.onCpu && s.curr == {} && s.me == InSched)
    && (s.pi.Waker? && s.pi.ph == LocalAct(1) ==> s.onRq == Off && s.queues == {s.cpu})
    && (s.pi.Waker? && s.pi.ph.LocalAct? && s.pi.ph.n >= 2 ==> s.onRq == Queued && s.queues == {s.cpu})
    && (s.pi.Waker? && s.pi.ph == LocalAct(3) ==> s.state == Running)
    && (s.pi.Waker? && s.pi.ph.RemoteDo? ==> s.cpu == s.pi.ph.r && s.onRq != Migrating)
  }

  ghost predicate PendOk(s: State) {
    !s.pend.NoPend? ==>
      && s.cpu == s.pend.c && !s.onCpu && s.curr == {} && s.me == InSched
      && (if s.pend.Activating? && s.pend.n >= 1 then s.queues == {s.cpu} else s.queues == {})
      && (if s.pend.Activating? && s.pend.n >= 2 then s.onRq == Queued else s.onRq == Off)
      && (s.pend.Activating? && s.pend.n == 3 ==> s.state == Running)
  }

  /** `p` has decided to sleep in this round's loop. */
  ghost predicate Decided_(s: State) {
    s.me == CallSched || s.me == InSched
  }

  /** A waker of this round has yet to decide about `p`. */
  ghost predicate Owed(s: State) {
    s.round as int in s.waiting || (s.pi.Waker? && s.pi.round == s.round && !s.pi.ph.Unlock? &&
        !(s.pi.ph.RemoteUnlock? && s.pi.ph.ok))
  }

  ghost predicate LossOk(s: State) {
    && (forall r :: r in s.waiting ==> r <= s.round)
    && (forall r :: r in s.done ==> r <= s.round)
    && (s.pi.Waker? ==> s.pi.round <= s.round)
    && (s.round as int in s.waiting || s.round as int in s.done || (s.pi.Waker? && s.pi.round == s.round) ==> s.cond)
    && (s.me == Finish || s.me == Exited ==> s.cond)
    && (s.cond && Decided_(s) && s.state == Sleeping ==> Owed(s) && s.round as int !in s.done)
    && (s.pi.Waker? && s.pi.round == s.round && Woken(s.pi.ph) && Decided_(s) ==> s.state != Sleeping)
  }

  ghost predicate Inv(s: State) {
    && (forall c :: LockOk(s, c) && SchedOk(s, c))
    && PlaceOk(s) && MigOk(s) && WakeOk(s) && PendOk(s) && LossOk(s)
  }

  lemma TaskKeeps(s: State, c: nat, a: TaskAct)
    requires Inv(s) && TaskCan(s, c, a)
    ensures Inv(TaskDo(s, a))
  {
    var r := TaskDo(s, a);
    assert LockOk(s, c) && SchedOk(s, c);
    forall x ensures LockOk(r, x) && SchedOk(r, x) {
      assert LockOk(s, x) && SchedOk(s, x);
    }
  }

  /** The CPU facts the cases use. */
  lemma Facts(s: State, c: nat)
    requires Inv(s)
    ensures LockOk(s, c) && SchedOk(s, c)
    ensures LockOk(s, s.cpu) && SchedOk(s, s.cpu) && LockOk(s, s.ranOn) && SchedOk(s, s.ranOn)
    ensures s.curr == {} || s.curr == {s.ranOn}
    ensures s.curr - {s.ranOn} == {}
    ensures !s.onCpu && !Sc(s, s.ranOn).Picked? ==> s.curr == {}
  {
    forall x | x in s.curr ensures x == s.ranOn {
      assert SchedOk(s, x);
    }
  }

  // ----- One lemma for each kind of step

  lemma SchedTake(s: State, c: nat, a: SchedAct)
    requires Inv(s) && SchedCan(s, c, a) && a.Take?
    ensures Inv(SchedDo(s, c, a))
  {
    var r := SchedDo(s, c, a);
    Facts(s, c);
    forall x ensures LockOk(r, x) && SchedOk(r, x) { Facts(s, x); }
  }

  lemma SchedStay(s: State, c: nat, a: SchedAct)
    requires Inv(s) && SchedCan(s, c, a) && a.Stay?
    ensures Inv(SchedDo(s, c, a))
  {
    var r := SchedDo(s, c, a);
    Facts(s, c);
    forall x ensures LockOk(r, x) && SchedOk(r, x) { Facts(s, x); }
  }

  lemma SchedSignal(s: State, c: nat, a: SchedAct)
    requires Inv(s) && SchedCan(s, c, a) && a.Signal?
    ensures Inv(SchedDo(s, c, a))
  {
    var r := SchedDo(s, c, a);
    Facts(s, c);
    forall x ensures LockOk(r, x) && SchedOk(r, x) { Facts(s, x); }
  }

  lemma SchedDeactivate(s: State, c: nat, a: SchedAct)
    requires Inv(s) && SchedCan(s, c, a) && a.Deactivate?
    ensures Inv(SchedDo(s, c, a))
  {
    var r := SchedDo(s, c, a);
    Facts(s, c);
    forall x ensures LockOk(r, x) && SchedOk(r, x) { Facts(s, x); }
  }

  lemma SchedClearOnRq(s: State, c: nat, a: SchedAct)
    requires Inv(s) && SchedCan(s, c, a) && a.ClearOnRq?
    ensures Inv(SchedDo(s, c, a))
  {
    var r := SchedDo(s, c, a);
    Facts(s, c);
    forall x ensures LockOk(r, x) && SchedOk(r, x) { Facts(s, x); }
  }

  lemma SchedPickP(s: State, c: nat, a: SchedAct)
    requires Inv(s) && SchedCan(s, c, a) && a.PickP?
    ensures Inv(SchedDo(s, c, a))
  {
    var r := SchedDo(s, c, a);
    Facts(s, c);
    forall x ensures LockOk(r, x) && SchedOk(r, x) { Facts(s, x); }
  }

  lemma SchedPrepare(s: State, c: nat, a: SchedAct)
    requires Inv(s) && SchedCan(s, c, a) && a.Prepare?
    ensures Inv(SchedDo(s, c, a))
  {
    var r := SchedDo(s, c, a);
    Facts(s, c);
    forall x ensures LockOk(r, x) && SchedOk(r, x) { Facts(s, x); }
  }

  lemma SchedFinishSwitch(s: State, c: nat, a: SchedAct)
    requires Inv(s) && SchedCan(s, c, a) && a.FinishSwitch?
    ensures Inv(SchedDo(s, c, a))
  {
    var r := SchedDo(s, c, a);
    Facts(s, c);
    forall x ensures LockOk(r, x) && SchedOk(r, x) { Facts(s, x); }
  }

  lemma SchedLeave(s: State, c: nat, a: SchedAct)
    requires Inv(s) && SchedCan(s, c, a) && a.Leave?
    ensures Inv(SchedDo(s, c, a))
  {
    var r := SchedDo(s, c, a);
    Facts(s, c);
    forall x ensures LockOk(r, x) && SchedOk(r, x) { Facts(s, x); }
  }

  lemma SchedPickAway(s: State, c: nat, a: SchedAct)
    requires Inv(s) && SchedCan(s, c, a) && a.PickOther? && c in s.curr
    ensures Inv(SchedDo(s, c, a))
  {
    var r := SchedDo(s, c, a);
    Facts(s, c);
    forall x ensures LockOk(r, x) && SchedOk(r, x) { Facts(s, x); }
  }

  lemma SchedPickElse(s: State, c: nat, a: SchedAct)
    requires Inv(s) && SchedCan(s, c, a) && a.PickOther? && c !in s.curr
    ensures Inv(SchedDo(s, c, a))
  {
    var r := SchedDo(s, c, a);
    Facts(s, c);
    forall x ensures LockOk(r, x) && SchedOk(r, x) { Facts(s, x); }
  }

  lemma WakeSetCond(s: State, a: WakeAct)
    requires Inv(s) && WakeCan(s, a) && a.SetCond?
    ensures Inv(WakeDo(s, a))
  {
    var r := WakeDo(s, a);
    Facts(s, s.cpu);
    forall x ensures LockOk(r, x) && SchedOk(r, x) { Facts(s, x); }
  }

  lemma WakeSpurious(s: State, a: WakeAct)
    requires Inv(s) && WakeCan(s, a) && a.Spurious?
    ensures Inv(WakeDo(s, a))
  {
    var r := WakeDo(s, a);
    Facts(s, s.cpu);
    forall x ensures LockOk(r, x) && SchedOk(r, x) { Facts(s, x); }
  }

  lemma WakeTakePi(s: State, a: WakeAct)
    requires Inv(s) && WakeCan(s, a) && a.TakePi?
    ensures Inv(WakeDo(s, a))
  {
    var r := WakeDo(s, a);
    Facts(s, s.cpu);
    forall x ensures LockOk(r, x) && SchedOk(r, x) { Facts(s, x); }
  }

  lemma WakeChoose(s: State, a: WakeAct)
    requires Inv(s) && WakeCan(s, a) && a.Choose?
    ensures Inv(WakeDo(s, a))
  {
    var r := WakeDo(s, a);
    Facts(s, s.cpu);
    forall x ensures LockOk(r, x) && SchedOk(r, x) { Facts(s, x); }
  }

  lemma WakeRemote(s: State, a: WakeAct)
    requires Inv(s) && WakeCan(s, a) && a.Remote?
    ensures Inv(WakeDo(s, a))
  {
    var r := WakeDo(s, a);
    Facts(s, s.cpu);
    forall x ensures LockOk(r, x) && SchedOk(r, x) { Facts(s, x); }
  }

  lemma WakeLocal(s: State, a: WakeAct)
    requires Inv(s) && WakeCan(s, a) && a.Local?
    ensures Inv(WakeDo(s, a))
  {
    var r := WakeDo(s, a);
    Facts(s, s.cpu);
    forall x ensures LockOk(r, x) && SchedOk(r, x) { Facts(s, x); }
  }

  lemma GoCheck(s: State)
    requires Inv(s) && WakeCan(s, Go) && s.pi.ph.Check?
    ensures Inv(Go_(s))
  {
    var r := Go_(s);
    Facts(s, s.cpu);
    forall x ensures LockOk(r, x) && SchedOk(r, x) { Facts(s, x); }
  }

  lemma GoReadOnRq(s: State)
    requires Inv(s) && WakeCan(s, Go) && s.pi.ph.ReadOnRq?
    ensures Inv(Go_(s))
  {
    var r := Go_(s);
    Facts(s, s.cpu);
    forall x ensures LockOk(r, x) && SchedOk(r, x) { Facts(s, x); }
  }

  lemma GoRemoteCpu(s: State)
    requires Inv(s) && WakeCan(s, Go) && s.pi.ph.RemoteCpu?
    ensures Inv(Go_(s))
  {
    var r := Go_(s);
    Facts(s, s.cpu);
    forall x ensures LockOk(r, x) && SchedOk(r, x) { Facts(s, x); }
  }

  lemma GoRemoteLock(s: State)
    requires Inv(s) && WakeCan(s, Go) && s.pi.ph.RemoteLock?
    ensures Inv(Go_(s))
  {
    var r := Go_(s);
    Facts(s, s.cpu);
    forall x ensures LockOk(r, x) && SchedOk(r, x) { Facts(s, x); }
  }

  lemma GoRemoteSpin(s: State)
    requires Inv(s) && WakeCan(s, Go) && s.pi.ph.RemoteSpin?
    ensures Inv(Go_(s))
  {
    var r := Go_(s);
    Facts(s, s.cpu);
    forall x ensures LockOk(r, x) && SchedOk(r, x) { Facts(s, x); }
  }

  lemma GoRemoteDo(s: State)
    requires Inv(s) && WakeCan(s, Go) && s.pi.ph.RemoteDo?
    ensures Inv(Go_(s))
  {
    var r := Go_(s);
    Facts(s, s.cpu);
    forall x ensures LockOk(r, x) && SchedOk(r, x) { Facts(s, x); }
  }

  lemma GoRemoteUnlock(s: State)
    requires Inv(s) && WakeCan(s, Go) && s.pi.ph.RemoteUnlock?
    ensures Inv(Go_(s))
  {
    var r := Go_(s);
    Facts(s, s.cpu);
    forall x ensures LockOk(r, x) && SchedOk(r, x) { Facts(s, x); }
  }

  lemma GoWaitCpu(s: State)
    requires Inv(s) && WakeCan(s, Go) && s.pi.ph.WaitCpu?
    ensures Inv(Go_(s))
  {
    var r := Go_(s);
    Facts(s, s.cpu);
    forall x ensures LockOk(r, x) && SchedOk(r, x) { Facts(s, x); }
  }

  lemma GoSetWaking(s: State)
    requires Inv(s) && WakeCan(s, Go) && s.pi.ph.SetWaking?
    ensures Inv(Go_(s))
  {
    var r := Go_(s);
    Facts(s, s.cpu);
    forall x ensures LockOk(r, x) && SchedOk(r, x) { Facts(s, x); }
  }

  lemma GoLocalLock(s: State)
    requires Inv(s) && WakeCan(s, Go) && s.pi.ph.LocalLock?
    ensures Inv(Go_(s))
  {
    var r := Go_(s);
    Facts(s, s.cpu);
    forall x ensures LockOk(r, x) && SchedOk(r, x) { Facts(s, x); }
  }

  lemma GoUnlock(s: State)
    requires Inv(s) && WakeCan(s, Go) && s.pi.ph.Unlock?
    ensures Inv(Go_(s))
  {
    var r := Go_(s);
    Facts(s, s.cpu);
    forall x ensures LockOk(r, x) && SchedOk(r, x) { Facts(s, x); }
  }

  lemma GoRemoteRight(s: State)
    requires Inv(s) && WakeCan(s, Go) && s.pi.ph.RemoteCheck? && s.cpu == s.pi.ph.r && s.onRq != Migrating
    ensures Inv(Go_(s))
  {
    var r := Go_(s);
    Facts(s, s.cpu);
    forall x ensures LockOk(r, x) && SchedOk(r, x) { Facts(s, x); }
  }

  lemma GoRemoteWrong(s: State)
    requires Inv(s) && WakeCan(s, Go) && s.pi.ph.RemoteCheck? && !(s.cpu == s.pi.ph.r && s.onRq != Migrating)
    ensures Inv(Go_(s))
  {
    var r := Go_(s);
    Facts(s, s.cpu);
    forall x ensures LockOk(r, x) && SchedOk(r, x) { Facts(s, x); }
  }

  lemma GoLocalAct(s: State)
    requires Inv(s) && WakeCan(s, Go) && s.pi.ph.LocalAct? && s.pi.ph.n <= 2
    ensures Inv(Go_(s))
  {
    var r := Go_(s);
    Facts(s, s.cpu);
    forall x ensures LockOk(r, x) && SchedOk(r, x) { Facts(s, x); }
  }

  lemma GoLocalUnlock(s: State)
    requires Inv(s) && WakeCan(s, Go) && s.pi.ph.LocalAct? && s.pi.ph.n > 2
    ensures Inv(Go_(s))
  {
    var r := Go_(s);
    Facts(s, s.cpu);
    forall x ensures LockOk(r, x) && SchedOk(r, x) { Facts(s, x); }
  }

  lemma DoPendGrab(s: State, a: OtherAct)
    requires Inv(s) && OtherCan(s, a) && a.PendGrab?
    ensures Inv(OtherDo(s, a))
  {
    var r := OtherDo(s, a);
    Facts(s, s.cpu);
    forall x ensures LockOk(r, x) && SchedOk(r, x) { Facts(s, x); }
  }

  lemma DoPendLock(s: State, a: OtherAct)
    requires Inv(s) && OtherCan(s, a) && a.PendLock?
    ensures Inv(OtherDo(s, a))
  {
    var r := OtherDo(s, a);
    Facts(s, s.cpu);
    forall x ensures LockOk(r, x) && SchedOk(r, x) { Facts(s, x); }
  }

  lemma DoPendGo(s: State, a: OtherAct)
    requires Inv(s) && OtherCan(s, a) && a.PendGo?
    ensures Inv(OtherDo(s, a))
  {
    var r := OtherDo(s, a);
    Facts(s, s.cpu);
    forall x ensures LockOk(r, x) && SchedOk(r, x) { Facts(s, x); }
  }

  lemma DoMigBegin(s: State, a: OtherAct)
    requires Inv(s) && OtherCan(s, a) && a.MigBegin?
    ensures Inv(OtherDo(s, a))
  {
    var r := OtherDo(s, a);
    Facts(s, s.cpu);
    forall x ensures LockOk(r, x) && SchedOk(r, x) { Facts(s, x); }
  }

  lemma DoPushBegin(s: State, a: OtherAct)
    requires Inv(s) && OtherCan(s, a) && a.PushBegin?
    ensures Inv(OtherDo(s, a))
  {
    var r := OtherDo(s, a);
    Facts(s, s.cpu);
    forall x ensures LockOk(r, x) && SchedOk(r, x) { Facts(s, x); }
  }

  lemma DoLockOther(s: State, a: OtherAct)
    requires Inv(s) && OtherCan(s, a) && a.LockOther?
    ensures Inv(OtherDo(s, a))
  {
    var r := OtherDo(s, a);
    Facts(s, s.cpu);
    forall x ensures LockOk(r, x) && SchedOk(r, x) { Facts(s, x); }
  }

  lemma DoUnlockOther(s: State, a: OtherAct)
    requires Inv(s) && OtherCan(s, a) && a.UnlockOther?
    ensures Inv(OtherDo(s, a))
  {
    var r := OtherDo(s, a);
    Facts(s, s.cpu);
    forall x ensures LockOk(r, x) && SchedOk(r, x) { Facts(s, x); }
  }

  lemma MigMDeq(s: State, a: OtherAct)
    requires Inv(s) && OtherCan(s, a) && a.MigGo? && s.mig.MDeq?
    ensures Inv(OtherDo(s, a))
  {
    var r := OtherDo(s, a);
    Facts(s, s.cpu);
    forall x ensures LockOk(r, x) && SchedOk(r, x) { Facts(s, x); }
  }

  lemma MigMMove(s: State, a: OtherAct)
    requires Inv(s) && OtherCan(s, a) && a.MigGo? && s.mig.MMove?
    ensures Inv(OtherDo(s, a))
  {
    var r := OtherDo(s, a);
    Facts(s, s.cpu);
    forall x ensures LockOk(r, x) && SchedOk(r, x) { Facts(s, x); }
  }

  lemma MigMDrop(s: State, a: OtherAct)
    requires Inv(s) && OtherCan(s, a) && a.MigGo? && s.mig.MDrop?
    ensures Inv(OtherDo(s, a))
  {
    var r := OtherDo(s, a);
    Facts(s, s.cpu);
    forall x ensures LockOk(r, x) && SchedOk(r, x) { Facts(s, x); }
  }

  lemma MigMWant(s: State, a: OtherAct)
    requires Inv(s) && OtherCan(s, a) && a.MigGo? && s.mig.MWant?
    ensures Inv(OtherDo(s, a))
  {
    var r := OtherDo(s, a);
    Facts(s, s.cpu);
    forall x ensures LockOk(r, x) && SchedOk(r, x) { Facts(s, x); }
  }

  lemma MigMEnq(s: State, a: OtherAct)
    requires Inv(s) && OtherCan(s, a) && a.MigGo? && s.mig.MEnq?
    ensures Inv(OtherDo(s, a))
  {
    var r := OtherDo(s, a);
    Facts(s, s.cpu);
    forall x ensures LockOk(r, x) && SchedOk(r, x) { Facts(s, x); }
  }

  lemma MigMOn(s: State, a: OtherAct)
    requires Inv(s) && OtherCan(s, a) && a.MigGo? && s.mig.MOn?
    ensures Inv(OtherDo(s, a))
  {
    var r := OtherDo(s, a);
    Facts(s, s.cpu);
    forall x ensures LockOk(r, x) && SchedOk(r, x) { Facts(s, x); }
  }

  lemma MigMDone(s: State, a: OtherAct)
    requires Inv(s) && OtherCan(s, a) && a.MigGo? && s.mig.MDone?
    ensures Inv(OtherDo(s, a))
  {
    var r := OtherDo(s, a);
    Facts(s, s.cpu);
    forall x ensures LockOk(r, x) && SchedOk(r, x) { Facts(s, x); }
  }

  lemma PushHave(s: State, a: OtherAct)
    requires Inv(s) && OtherCan(s, a) && a.PushGo? && s.push.Have?
    ensures Inv(OtherDo(s, a))
  {
    var r := OtherDo(s, a);
    Facts(s, s.cpu);
    forall x ensures LockOk(r, x) && SchedOk(r, x) { Facts(s, x); }
  }

  lemma PushOut(s: State, a: OtherAct)
    requires Inv(s) && OtherCan(s, a) && a.PushGo? && s.push.Out?
    ensures Inv(OtherDo(s, a))
  {
    var r := OtherDo(s, a);
    Facts(s, s.cpu);
    forall x ensures LockOk(r, x) && SchedOk(r, x) { Facts(s, x); }
  }

  lemma PushMoved(s: State, a: OtherAct)
    requires Inv(s) && OtherCan(s, a) && a.PushGo? && s.push.Moved?
    ensures Inv(OtherDo(s, a))
  {
    var r := OtherDo(s, a);
    Facts(s, s.cpu);
    forall x ensures LockOk(r, x) && SchedOk(r, x) { Facts(s, x); }
  }

  lemma PushIn(s: State, a: OtherAct)
    requires Inv(s) && OtherCan(s, a) && a.PushGo? && s.push.In?
    ensures Inv(OtherDo(s, a))
  {
    var r := OtherDo(s, a);
    Facts(s, s.cpu);
    forall x ensures LockOk(r, x) && SchedOk(r, x) { Facts(s, x); }
  }

  lemma SchedKeeps(s: State, c: nat, a: SchedAct)
    requires Inv(s) && SchedCan(s, c, a)
    ensures Inv(SchedDo(s, c, a))
  {
    hide Inv;
    match a
    case Take(_) => SchedTake(s, c, a);
    case Stay => SchedStay(s, c, a);
    case Signal => SchedSignal(s, c, a);
    case Deactivate => SchedDeactivate(s, c, a);
    case ClearOnRq => SchedClearOnRq(s, c, a);
    case PickP => SchedPickP(s, c, a);
    case PickOther => if c in s.curr { SchedPickAway(s, c, a); } else { SchedPickElse(s, c, a); }
    case Prepare => SchedPrepare(s, c, a);
    case FinishSwitch => SchedFinishSwitch(s, c, a);
    case Leave => SchedLeave(s, c, a);
  }

  lemma GoKeeps(s: State)
    requires Inv(s) && WakeCan(s, Go)
    ensures Inv(Go_(s))
  {
    hide Inv;
    match s.pi.ph
    case Check => GoCheck(s);
    case ReadOnRq => GoReadOnRq(s);
    case RemoteCpu => GoRemoteCpu(s);
    case RemoteLock(_) => GoRemoteLock(s);
    case RemoteCheck(r) => if s.cpu == r && s.onRq != Migrating { GoRemoteRight(s); } else { GoRemoteWrong(s); }
    case RemoteSpin => GoRemoteSpin(s);
    case RemoteDo(_) => GoRemoteDo(s);
    case RemoteUnlock(_, _) => GoRemoteUnlock(s);
    case WaitCpu => GoWaitCpu(s);
    case SetWaking => GoSetWaking(s);
    case LocalLock => GoLocalLock(s);
    case LocalAct(n) => if n <= 2 { GoLocalAct(s); } else { GoLocalUnlock(s); }
    case Unlock => GoUnlock(s);
    case _ =>
  }

  lemma WakeKeeps(s: State, a: WakeAct)
    requires Inv(s) && WakeCan(s, a)
    ensures Inv(WakeDo(s, a))
  {
    hide Inv; hide Go_;
    match a
    case SetCond => WakeSetCond(s, a);
    case Spurious(_) => WakeSpurious(s, a);
    case TakePi(_) => WakeTakePi(s, a);
    case Choose(_) => WakeChoose(s, a);
    case Remote => WakeRemote(s, a);
    case Local => WakeLocal(s, a);
    case Go => GoKeeps(s);
  }

  lemma OtherKeeps(s: State, a: OtherAct)
    requires Inv(s) && OtherCan(s, a)
    ensures Inv(OtherDo(s, a))
  {
    hide Inv; hide OtherDo;
    match a
    case PendGrab => DoPendGrab(s, a);
    case PendLock => DoPendLock(s, a);
    case PendGo => DoPendGo(s, a);
    case MigBegin(_, _) => DoMigBegin(s, a);
    case MigGo(_) => MigKeeps(s, a);
    case PushBegin(_, _) => DoPushBegin(s, a);
    case PushGo => PushKeeps(s, a);
    case LockOther(_) => DoLockOther(s, a);
    case UnlockOther(_) => DoUnlockOther(s, a);
  }

  lemma MigKeeps(s: State, a: OtherAct)
    requires Inv(s) && OtherCan(s, a) && a.MigGo?
    ensures Inv(OtherDo(s, a))
  {
    hide Inv; hide OtherDo;
    match s.mig
    case MDeq(_) => MigMDeq(s, a);
    case MMove(_) => MigMMove(s, a);
    case MDrop(_) => MigMDrop(s, a);
    case MWant => MigMWant(s, a);
    case MEnq => MigMEnq(s, a);
    case MOn => MigMOn(s, a);
    case MDone => MigMDone(s, a);
  }

  lemma PushKeeps(s: State, a: OtherAct)
    requires Inv(s) && OtherCan(s, a) && a.PushGo?
    ensures Inv(OtherDo(s, a))
  {
    hide Inv; hide OtherDo;
    match s.push
    case Have(_, _) => PushHave(s, a);
    case Out(_, _) => PushOut(s, a);
    case Moved(_, _) => PushMoved(s, a);
    case In(_, _) => PushIn(s, a);
  }

  lemma NextKeeps(s: State, r: State)
    requires Inv(s) && Next(s, r)
    ensures Inv(r)
  {
    hide Inv; hide TaskDo; hide SchedDo; hide WakeDo; hide OtherDo; hide TaskCan; hide SchedCan; hide WakeCan;
    hide OtherCan;
    if c, a :| TaskCan(s, c, a) && r == TaskDo(s, a) {
      TaskKeeps(s, c, a);
    } else if c, a :| SchedCan(s, c, a) && r == SchedDo(s, c, a) {
      SchedKeeps(s, c, a);
    } else if a :| WakeCan(s, a) && r == WakeDo(s, a) {
      WakeKeeps(s, a);
    } else {
      var a :| OtherCan(s, a) && r == OtherDo(s, a);
      OtherKeeps(s, a);
    }
  }

  // ----- Runs

  /** `p` runs on CPU `s.cpu`, before its wait loop; nothing else is under way. */
  ghost predicate Initial(s: State) {
    && s.state == Running && s.onRq == Queued && s.onCpu && s.cpu == s.ranOn
    && s.queues == {s.cpu} && s.curr == {s.cpu} && s.lock == map[] && s.sched == map[]
    && s.me == SetState && !s.cond && s.waiting == multiset{} && s.done == {}
    && s.pi.PiFree? && s.pend.NoPend? && s.mig.NoMig? && s.push.NoPush?
  }

  ghost predicate IsRun(run: seq<State>) {
    run != [] && Initial(run[0]) && forall i :: 0 < i < |run| ==> Next(run[i - 1], run[i])
  }

  lemma {:induction false} RunKeeps(run: seq<State>, n: nat)
    requires IsRun(run) && n < |run|
    ensures Inv(run[n])
  {
    if n == 0 {
      StartsWell(run[0]);
    } else {
      hide Inv; hide Next; hide Initial;
      RunKeeps(run, n - 1);
      NextKeeps(run[n - 1], run[n]);
    }
  }

  lemma StartsWell(s: State)
    requires Initial(s)
    ensures Inv(s)
  {
  }

  /** `p` is linked on its run queue, on its way from one run queue to another, or on its way to one
      through a waker or a wake list. */
  ghost predicate Cared(s: State) {
    || s.queues == {s.cpu} || s.onRq == Migrating || s.push.Out? || s.push.Moved?
    || (s.state == Waking && WakingNow(s))
  }

  /** No wake-up is lost: once a waker that set this round's condition has returned, `p` is running, queued,
      being moved, or on its way to a run queue through a wake list; and it is not inside the scheduler, or
      about to enter it, as a sleeper. */
  lemma NoLostWakeup(run: seq<State>, n: nat)
    requires IsRun(run) && n < |run|
    ensures var s := run[n];
            s.round as int in s.done ==> Cared(s) && !(Decided_(s) && s.state == Sleeping)
  {
    RunKeeps(run, n);
    var s := run[n];
    assert LockOk(s, s.cpu) && SchedOk(s, s.cpu);
  }

  /** A task that went to sleep has left its run queue, or the scheduler that put it to sleep still holds the
      lock and is taking it off; so no scheduler can pick it. */
  lemma SleeperIsOff(run: seq<State>, n: nat)
    requires IsRun(run) && n < |run| && run[n].me == InSched && run[n].state == Sleeping
    ensures AsleepOk(run[n]) && forall c :: !SchedCan(run[n], c, PickP)
  {
    RunKeeps(run, n);
    var s := run[n];
    forall c ensures !SchedCan(s, c, PickP) {
      assert LockOk(s, c) && SchedOk(s, c) && LockOk(s, s.ranOn);
    }
  }

  /** The task leaves its wait loop only after it has seen this round's condition set. */
  lemma LeavesWhenSet(run: seq<State>, n: nat)
    requires IsRun(run) && n < |run| && (run[n].me == Finish || run[n].me == Exited)
    ensures run[n].cond
  {
    RunKeeps(run, n);
  }

  /** The spin on `on_cpu` ends: while a waker waits in it, the CPU that still has `on_cpu` set is inside
      `__schedule` with its lock held and past its last wait, on its way to clearing it. */
  lemma SpinEnds(run: seq<State>, n: nat)
    requires IsRun(run) && n < |run|
    ensures var s := run[n];
            s.pi.Waker? && s.pi.ph.WaitCpu? && s.onCpu ==>
              L(s, s.ranOn) == Sched && (Sc(s, s.ranOn).Decided? || Sc(s, s.ranOn).Switching?)
  {
    RunKeeps(run, n);
    Facts(run[n], run[n].ranOn);
  }

  /** In every reachable state `p` is current on at most one CPU and queued on at most one run queue,
      which is the one `task_cpu` names; and while some CPU still has `on_cpu` set for it, it is queued
      nowhere else. */
  lemma OnePlace(run: seq<State>, n: nat)
    requires IsRun(run) && n < |run|
    ensures var s := run[n];
            && (forall c, d :: c in s.curr && d in s.curr ==> c == d)
            && s.queues <= {s.cpu}
            && (s.onCpu ==> s.queues <= {s.ranOn} && s.curr <= {s.ranOn})
  {
    RunKeeps(run, n);
    Facts(run[n], 0);
  }

  /** Whenever a scheduler is about to switch to `p`, no CPU is still running it or leaving it. */
  lemma PickIsSafe(run: seq<State>, n: nat, c: nat)
    requires IsRun(run) && n < |run| && SchedCan(run[n], c, PickP) && c !in run[n].curr
    ensures !run[n].onCpu && run[n].curr == {} && run[n].onRq == Queued && run[n].cpu == c
  {
    var s := run[n];
    RunKeeps(run, n);
    Facts(s, c);
  }

  /** Entering a wake list or a run queue never finds `p` already on one. */
  lemma NoDoubleEnqueue(run: seq<State>, n: nat)
    requires IsRun(run) && n < |run|
    ensures var s := run[n];
            && (WakeCan(s, Remote) ==> s.pend.NoPend? && s.queues == {})
            && (s.pi.Waker? && s.pi.ph == LocalAct(0) ==> s.queues == {})
            && (s.pend.Activating? && s.pend.n == 0 ==> s.queues == {})
            && (s.mig.MEnq? || s.push.Moved? ==> s.queues == {})
  {
    RunKeeps(run, n);
  }

  // ----- Sleeping lasts

  /** A step that is no waker's, does not finish a wake-up on a wake list, and delivers no signal. */
  ghost predicate Quiet(s: State, r: State) {
    || (exists c, a :: TaskCan(s, c, a) && r == TaskDo(s, a))
    || (exists c, a: SchedAct :: !a.Signal? && SchedCan(s, c, a) && r == SchedDo(s, c, a))
    || (exists a: OtherAct :: !a.PendGo? && OtherCan(s, a) && r == OtherDo(s, a))
  }

  /** `p` means to sleep: it is between setting its state and returning from `schedule`. */
  ghost predicate Sleeps(s: State) {
    s.state == Sleeping && !s.cond && (s.me.Test? || s.me.CallSched? || s.me.InSched?)
  }

  /** A set condition has a waker: one that wants `pi_lock`, holds it or has returned. */
  ghost predicate Carried(s: State) {
    s.cond ==> s.round as int in s.waiting || s.round as int in s.done || (s.pi.Waker? && s.pi.round == s.round)
  }

  /** The parts of the state by which the task and its wakers find each other. */
  lemma SchedTouches(s: State, c: nat, a: SchedAct)
    requires SchedCan(s, c, a)
    ensures var r := SchedDo(s, c, a);
            && r.cond == s.cond && r.round == s.round && r.waiting == s.waiting && r.done == s.done && r.pi == s.pi
            && (a.Signal? || r.state == s.state) && (r.me == s.me || (s.me.CallSched? && r.me.InSched?))
  {
  }

  /** A waker's step within `try_to_wake_up`: it keeps `pi_lock`, or returns. */
  ghost predicate Waked(s: State, r: State)
    requires s.pi.Waker?
  {
    && r.me == s.me && r.round == s.round && r.cond == s.cond && r.waiting == s.waiting && r.cpu == s.cpu
    && (if s.pi.ph.Unlock? then r.done == s.done + {s.pi.round}
        else r.done == s.done && r.pi.Waker? && r.pi.round == s.pi.round)
  }

  lemma GoTouches(s: State)
    requires s.pi.Waker?
    ensures Waked(s, Go_(s))
  {
    hide L; hide Sc; hide SetLock;
    match s.pi.ph
    case RemoteLock(r) => SetLockOnly(s, r, ByPi);
    case RemoteCheck(r) => SetLockOnly(s, r, Free);
    case RemoteUnlock(r, _) => SetLockOnly(s, r, Free);
    case LocalLock => SetLockOnly(s, s.cpu, ByPi);
    case LocalAct(_) => SetLockOnly(s, s.cpu, Free);
    case _ =>
  }

  lemma SetLockOnly(s: State, c: nat, h: Holder)
    ensures SetLock(s, c, h) == s.(lock := SetLock(s, c, h).lock)
  {
  }

  lemma WakeTouches(s: State, a: WakeAct)
    requires WakeCan(s, a)
    ensures var r := WakeDo(s, a); r.me == s.me && r.round == s.round && (Carried(s) ==> Carried(r))
  {
    hide L; hide Sc; hide Go_;
    if a.Go? {
      GoTouches(s);
    }
  }

  /** Nothing of a wake-up changes but, on a wake list, the task's state and, by a migrator, a free `pi_lock`. */
  ghost predicate Aside(s: State, r: State) {
    && r.cond == s.cond && r.round == s.round && r.waiting == s.waiting && r.done == s.done
    && r.me == s.me && (s.pi.Waker? ==> r.pi == s.pi)
  }

  lemma MigTouches(s: State, a: OtherAct)
    requires OtherCan(s, a) && a.MigGo?
    ensures var r := OtherDo(s, a); Aside(s, r) && r.state == s.state
  {
    hide L; hide Sc;
  }

  lemma PushTouches(s: State, a: OtherAct)
    requires OtherCan(s, a) && a.PushGo?
    ensures var r := OtherDo(s, a); Aside(s, r) && r.state == s.state
  {
    hide L; hide Sc;
  }

  lemma OtherTouches(s: State, a: OtherAct)
    requires OtherCan(s, a)
    ensures var r := OtherDo(s, a); Aside(s, r) && (a.PendGo? || r.state == s.state)
  {
    hide L; hide Sc;
    if a.MigGo? {
      MigTouches(s, a);
    } else if a.PushGo? {
      PushTouches(s, a);
    }
  }

  /** A task that sleeps cannot return from `schedule`. */
  lemma NoReturn(s: State, c: nat)
    requires Inv(s) && Sleeps(s) && s.me.InSched?
    ensures !RunsAt(s, c)
  {
    assert SchedOk(s, c);
  }

  lemma QuietStep(s: State, r: State)
    requires Inv(s) && Sleeps(s) && Quiet(s, r)
    ensures Sleeps(r)
  {
    hide SchedDo; hide SchedCan; hide OtherDo; hide OtherCan; hide Inv;
    if c, a :| TaskCan(s, c, a) && r == TaskDo(s, a) {
      if s.me.InSched? {
        NoReturn(s, c);
      }
    } else if c, a: SchedAct :| !a.Signal? && SchedCan(s, c, a) && r == SchedDo(s, c, a) {
      SchedTouches(s, c, a);
    } else {
      var a: OtherAct :| !a.PendGo? && OtherCan(s, a) && r == OtherDo(s, a);
      OtherTouches(s, a);
    }
  }

  lemma SetsState(s: State, r: State)
    requires Next(s, r) && s.me.SetState? && r.me.Test?
    ensures r.state == Sleeping
  {
    hide SchedDo; hide SchedCan; hide OtherDo; hide OtherCan; hide WakeDo; hide WakeCan;
    if c, a :| SchedCan(s, c, a) && r == SchedDo(s, c, a) {
      SchedTouches(s, c, a);
    } else if a :| WakeCan(s, a) && r == WakeDo(s, a) {
      WakeTouches(s, a);
    } else if a :| OtherCan(s, a) && r == OtherDo(s, a) {
      OtherTouches(s, a);
    }
  }

  /** A task that sets its state while the condition is false goes to sleep and stays asleep: in whatever
      order the other steps come, until a waker or a signal acts it does not leave the wait loop, and once in
      the scheduler it is off its run queue, or being taken off. */
  lemma {:induction false} SleepLasts(run: seq<State>, i: nat, n: nat)
    requires IsRun(run) && i < n < |run| && run[i].me.SetState? && run[i + 1].me.Test? && !run[i + 1].cond
    requires forall k :: i + 1 < k <= n ==> Quiet(run[k - 1], run[k])
    ensures Sleeps(run[n]) && AsleepOk(run[n])
  {
    hide Next; hide Quiet; hide Initial;
    RunKeeps(run, n);
    if n == i + 1 {
      SetsState(run[i], run[n]);
    } else {
      SleepLasts(run, i, n - 1);
      RunKeeps(run, n - 1);
      hide Inv;
      QuietStep(run[n - 1], run[n]);
    }
  }

  lemma CarriedStep(s: State, r: State)
    requires Carried(s) && Next(s, r)
    ensures Carried(r)
  {
    hide SchedDo; hide SchedCan; hide OtherDo; hide OtherCan; hide WakeDo; hide WakeCan;
    if c, a :| SchedCan(s, c, a) && r == SchedDo(s, c, a) {
      SchedTouches(s, c, a);
    } else if a :| WakeCan(s, a) && r == WakeDo(s, a) {
      WakeTouches(s, a);
    } else if a :| OtherCan(s, a) && r == OtherDo(s, a) {
      OtherTouches(s, a);
    }
  }

  /** Whenever the condition of a round has been set, somebody is there to wake `p`, or has done so. */
  lemma {:induction false} CondIsCarried(run: seq<State>, n: nat)
    requires IsRun(run) && n < |run|
    ensures Carried(run[n])
  {
    if n > 0 {
      hide Next; hide Initial; hide Carried;
      CondIsCarried(run, n - 1);
      CarriedStep(run[n - 1], run[n]);
    }
  }

  // ----- Where a woken or migrated task ends up

  /** The task's next CPU has been named, and the task is not yet settled there. */
  ghost predicate Bound(s: State) {
    || (s.pi.Waker? && (s.pi.ph.Enqueue? || s.pi.ph.LocalLock? || s.pi.ph.LocalAct?)) || !s.pend.NoPend?
    || s.mig.MDrop? || s.mig.MWant? || s.mig.MEnq? || s.mig.MOn? || s.mig.MDone?
  }

  /** Step `s` to `r` names CPU `c`: `select_task_rq` in a waker, or the destination of a migrator. */
  ghost predicate Names(s: State, r: State, c: nat) {
    || (WakeCan(s, Choose(c)) && r == WakeDo(s, Choose(c)))
    || (s.mig.MMove? && r == OtherDo(s, MigGo(c)))
  }

  lemma SchedCpu(s: State, c: nat, a: SchedAct)
    requires SchedCan(s, c, a)
    ensures SchedDo(s, c, a).cpu == s.cpu
  {
  }

  lemma WakeCpu(s: State, a: WakeAct)
    requires WakeCan(s, a) && !a.Choose?
    ensures WakeDo(s, a).cpu == s.cpu
  {
    hide L; hide Sc; hide Go_;
    if a.Go? {
      GoTouches(s);
    }
  }

  /** The other steps that change `task_cpu` find the task off its way. */
  lemma OtherCpu(s: State, a: OtherAct)
    requires Inv(s) && Bound(s) && OtherCan(s, a)
    ensures OtherDo(s, a).cpu == s.cpu
  {
    Facts(s, s.cpu);
    hide Sc;
  }

  lemma CpuStays(s: State, r: State)
    requires Inv(s) && Bound(s) && Next(s, r)
    ensures r.cpu == s.cpu
  {
    hide SchedDo; hide SchedCan; hide OtherDo; hide OtherCan; hide WakeDo;
    if c, a :| SchedCan(s, c, a) && r == SchedDo(s, c, a) {
      SchedCpu(s, c, a);
    } else if a :| WakeCan(s, a) && r == WakeDo(s, a) {
      WakeCpu(s, a);
    } else if a :| OtherCan(s, a) && r == OtherDo(s, a) {
      OtherCpu(s, a);
    }
  }

  /** The task lands on the CPU that was named for it, and on no other. */
  lemma {:induction false} LandsWhereNamed(run: seq<State>, k: nat, n: nat, c: nat)
    requires IsRun(run) && k < n < |run| && Names(run[k], run[k + 1], c) && forall m :: k < m <= n ==> Bound(run[m])
    ensures run[n].cpu == c && run[n].queues <= {c} && (!run[n].pend.NoPend? ==> run[n].pend.c == c)
  {
    hide Next; hide Bound; hide Names; hide Initial;
    RunKeeps(run, n);
    if n == k + 1 {
      NamesIt(run[k], run[n], c);
    } else {
      LandsWhereNamed(run, k, n - 1, c);
      RunKeeps(run, n - 1);
      hide Inv;
      CpuStays(run[n - 1], run[n]);
    }
  }

  lemma NamesIt(s: State, r: State, c: nat)
    requires Names(s, r, c)
    ensures r.cpu == c
  {
  }

  // ----- Every round can be completed

  ghost predicate Path(p: seq<State>, s: State, r: State) {
    p != [] && p[0] == s && p[|p| - 1] == r && forall i :: 0 < i < |p| ==> Next(p[i - 1], p[i])
  }

  /** Some steps lead from `s` to `r`. */
  ghost predicate Reaches(s: State, r: State) {
    exists p :: Path(p, s, r)
  }

  lemma ReachNone(s: State)
    ensures Reaches(s, s)
  {
    assert Path([s], s, s);
  }

  lemma ReachMore(s: State, m: State, r: State)
    requires Reaches(s, m) && Next(m, r)
    ensures Reaches(s, r)
  {
    hide Next;
    var p :| Path(p, s, m);
    assert Path(p + [r], s, r);
  }

  lemma ReachTrans(s: State, m: State, r: State)
    requires Reaches(s, m) && Reaches(m, r)
    ensures Reaches(s, r)
  {
    hide Next;
    var p, q :| Path(p, s, m) && Path(q, m, r);
    var w := p + q[1..];
    forall i | 0 < i < |w| ensures Next(w[i - 1], w[i]) {
      if i >= |p| {
        assert Next(q[i - |p|], q[i - |p| + 1]);
      }
    }
    assert Path(w, s, r);
  }

  lemma ByTask(s: State, m: State, c: nat, a: TaskAct)
    requires Reaches(s, m) && TaskCan(m, c, a)
    ensures Reaches(s, TaskDo(m, a))
  {
    assert Next(m, TaskDo(m, a));
    ReachMore(s, m, TaskDo(m, a));
  }

  lemma BySched(s: State, m: State, c: nat, a: SchedAct)
    requires Reaches(s, m) && SchedCan(m, c, a)
    ensures Reaches(s, SchedDo(m, c, a))
  {
    assert Next(m, SchedDo(m, c, a));
    ReachMore(s, m, SchedDo(m, c, a));
  }

  lemma ByWake(s: State, m: State, a: WakeAct)
    requires Reaches(s, m) && WakeCan(m, a)
    ensures Reaches(s, WakeDo(m, a))
  {
    assert Next(m, WakeDo(m, a));
    ReachMore(s, m, WakeDo(m, a));
  }

  lemma ByOther(s: State, m: State, a: OtherAct)
    requires Reaches(s, m) && OtherCan(m, a)
    ensures Reaches(s, OtherDo(m, a))
  {
    assert Next(m, OtherDo(m, a));
    ReachMore(s, m, OtherDo(m, a));
  }

  /** `p` runs on `c` in its own code, at the start of its wait loop, and nothing else is under way. */
  ghost predicate Resting(s: State, c: nat) {
    && s.state == Running && s.onRq == Queued && s.onCpu && s.cpu == s.ranOn == c && s.queues == s.curr == {c}
    && s.me == SetState && !s.cond && s.pi.PiFree? && s.pend.NoPend?
    && forall d :: L(s, d) == Free && Sc(s, d) == Idle
  }

  /** `p` has set its state and `c`, with its lock held, has taken it off its run queue. */
  ghost function Dozing(s: State, c: nat): State {
    s.(state := Sleeping, me := InSched, lock := s.lock[c := Sched], sched := s.sched[c := Dequeued],
       queues := s.queues - {c})
  }

  lemma CanDoze(s: State, c: nat)
    requires Resting(s, c)
    ensures Reaches(s, Dozing(s, c))
  {
    assert L(s, c) == Free && Sc(s, c) == Idle;
    hide Reaches; hide Resting;
    ReachNone(s);
    ByTask(s, s, c, DoSet);
    var s1 := TaskDo(s, DoSet);
    ByTask(s, s1, c, DoTest);
    var s2 := TaskDo(s1, DoTest);
    BySched(s, s2, c, Take(false));
    var s3 := SchedDo(s2, c, Take(false));
    BySched(s, s3, c, Deactivate);
    assert SchedDo(s3, c, Deactivate) == Dozing(s, c);
  }

  /** CPU `c` has switched away from `p`. */
  ghost function Slept(s: State, c: nat): State {
    s.(lock := s.lock[c := Free], sched := s.sched[c := Idle], onRq := Off, curr := s.curr - {c}, onCpu := false)
  }

  lemma CanLeave(s: State, c: nat)
    requires Sc(s, c) == Dequeued && c in s.curr
    ensures Reaches(s, Slept(s, c))
  {
    hide Reaches; hide L;
    ReachNone(s);
    BySched(s, s, c, ClearOnRq);
    var s1 := SchedDo(s, c, ClearOnRq);
    BySched(s, s1, c, PickOther);
    var s2 := SchedDo(s1, c, PickOther);
    BySched(s, s2, c, FinishSwitch);
    var s3 := SchedDo(s2, c, FinishSwitch);
    BySched(s, s3, c, Leave);
    assert SchedDo(s3, c, Leave) == Slept(s, c);
  }

  /** A waker has set the condition and named CPU `d`. */
  ghost function Called(s: State, d: nat): State {
    s.(cond := true, state := Waking, cpu := d, pi := Waker(s.round, Enqueue))
  }

  lemma CanCall(s: State, d: nat)
    requires s.state == Sleeping && s.onRq == Off && !s.onCpu && s.pi.PiFree?
    ensures Reaches(s, Called(s, d))
  {
    hide Reaches;
    ReachNone(s);
    ByWake(s, s, SetCond);
    var s1 := WakeDo(s, SetCond);
    ByWake(s, s1, TakePi(s.round));
    var s2 := WakeDo(s1, TakePi(s.round));
    assert s2.waiting == s.waiting;
    ByWake(s, s2, Go);
    var s3 := Go_(s2);
    ByWake(s, s3, Go);
    var s4 := Go_(s3);
    ByWake(s, s4, Go);
    var s5 := Go_(s4);
    ByWake(s, s5, Go);
    var s6 := Go_(s5);
    ByWake(s, s6, Choose(d));
    assert WakeDo(s6, Choose(d)) == Called(s, d);
  }

  /** The wake-up is complete. */
  ghost function Awake(s: State): State
    requires s.pi.Waker?
  {
    s.(state := Running, onRq := Queued, queues := s.queues + {s.cpu}, lock := s.lock[s.cpu := Free],
       pi := PiFree, done := s.done + {s.pi.round})
  }

  /** The waker has the run-queue lock and has queued `p`. */
  ghost function Activated(s: State): State
    requires s.pi.Waker?
  {
    s.(pi := Waker(s.pi.round, LocalAct(1)), queues := s.queues + {s.cpu}, lock := s.lock[s.cpu := ByPi])
  }

  lemma CanActivate(s: State)
    requires s.pi.Waker? && s.pi.ph.Enqueue? && L(s, s.cpu) == Free
    ensures Reaches(s, Activated(s))
  {
    hide Reaches; hide Sc;
    ReachNone(s);
    ByWake(s, s, Local);
    var s1 := WakeDo(s, Local);
    ByWake(s, s1, Go);
    var s2 := Go_(s1);
    ByWake(s, s2, Go);
    assert Go_(s2) == Activated(s);
  }

  /** The waker takes the run-queue lock itself, */
  lemma CanWakeLocally(s: State)
    requires s.pi.Waker? && s.pi.ph.Enqueue? && L(s, s.cpu) == Free
    ensures Reaches(s, Awake(s))
  {
    hide Reaches; hide Sc;
    var s1 := Activated(s);
    CanActivate(s);
    ByWake(s, s1, Go);
    var s2 := Go_(s1);
    ByWake(s, s2, Go);
    var s3 := Go_(s2);
    ByWake(s, s3, Go);
    var s4 := Go_(s3);
    ByWake(s, s4, Go);
    assert Go_(s4) == Awake(s);
  }

  /** The waker has returned, and the CPU it left `p` to has its lock and is about to queue it. */
  ghost function Handed(s: State): State
    requires s.pi.Waker?
  {
    s.(pend := Activating(s.cpu, 0), lock := s.lock[s.cpu := ByPend], pi := PiFree, done := s.done + {s.pi.round})
  }

  lemma CanHand(s: State)
    requires s.pi.Waker? && s.pi.ph.Enqueue? && L(s, s.cpu) == Free && s.pend.NoPend?
    ensures Reaches(s, Handed(s)) && WakeDo(s, Remote).pend == Listed(s.cpu)
  {
    hide Reaches; hide Sc;
    ReachNone(s);
    ByWake(s, s, Remote);
    var s1 := WakeDo(s, Remote);
    ByWake(s, s1, Go);
    var s2 := Go_(s1);
    ByOther(s, s2, PendGrab);
    var s3 := OtherDo(s2, PendGrab);
    ByOther(s, s3, PendLock);
    assert OtherDo(s3, PendLock) == Handed(s);
  }

  /** or leaves `p` on the wake list of its CPU, which ends in the same state. */
  lemma CanWakeRemotely(s: State)
    requires s.pi.Waker? && s.pi.ph.Enqueue? && L(s, s.cpu) == Free && s.pend.NoPend?
    ensures Reaches(s, Awake(s))
  {
    hide Reaches; hide Sc; hide L;
    CanHand(s);
    var s4 := Handed(s);
    ByOther(s, s4, PendGo);
    var s5 := OtherDo(s4, PendGo);
    ByOther(s, s5, PendGo);
    var s6 := OtherDo(s5, PendGo);
    ByOther(s, s6, PendGo);
    var s7 := OtherDo(s6, PendGo);
    ByOther(s, s7, PendGo);
    assert OtherDo(s7, PendGo) == Awake(s);
  }

  /** CPU `d` has switched to `p`. */
  ghost function Running_(s: State, d: nat): State {
    s.(curr := s.curr + {d}, ranOn := d, onCpu := true, lock := s.lock[d := Free], sched := s.sched[d := Idle])
  }

  lemma CanPick(s: State, d: nat)
    requires d in s.queues && d !in s.curr && L(s, d) == Free && Sc(s, d) == Idle
    ensures Reaches(s, s.(curr := s.curr + {d}, ranOn := d, lock := s.lock[d := Sched], sched := s.sched[d := Picked]))
  {
    hide Reaches;
    ReachNone(s);
    BySched(s, s, d, Take(true));
    var s1 := SchedDo(s, d, Take(true));
    BySched(s, s1, d, Stay);
    var s2 := SchedDo(s1, d, Stay);
    BySched(s, s2, d, PickP);
    assert SchedDo(s2, d, PickP)
        == s.(curr := s.curr + {d}, ranOn := d, lock := s.lock[d := Sched], sched := s.sched[d := Picked]);
  }

  lemma CanRun(s: State, d: nat)
    requires d in s.queues && d !in s.curr && L(s, d) == Free && Sc(s, d) == Idle
    ensures Reaches(s, Running_(s, d))
  {
    hide Reaches;
    CanPick(s, d);
    var s1 := s.(curr := s.curr + {d}, ranOn := d, lock := s.lock[d := Sched], sched := s.sched[d := Picked]);
    hide L;
    BySched(s, s1, d, Prepare);
    var s2 := SchedDo(s1, d, Prepare);
    BySched(s, s2, d, Leave);
    assert SchedDo(s2, d, Leave) == Running_(s, d);
  }

  lemma CanGoOn(s: State, d: nat)
    requires RunsAt(s, d) && s.me == InSched && s.cond
    ensures Reaches(s, s.(state := Running, round := s.round + 1, cond := false, me := SetState))
  {
    hide Reaches;
    ReachNone(s);
    ByTask(s, s, d, DoReturn);
    var s1 := TaskDo(s, DoReturn);
    ByTask(s, s1, d, DoSet);
    var s2 := TaskDo(s1, DoSet);
    ByTask(s, s2, d, DoTest);
    var s3 := TaskDo(s2, DoTest);
    ByTask(s, s3, d, DoFinish);
    var s4 := TaskDo(s3, DoFinish);
    ByTask(s, s4, d, DoAgain);
  }

  /** A queued task that does not run, on its way from `c` to `d`: off the one and not yet on the other. */
  ghost function Moving(s: State, c: nat, d: nat, withPi: bool): State {
    s.(mig := MWant, onRq := Migrating, queues := s.queues - {c}, cpu := d, lock := s.lock[c := Free],
       pi := if withPi then ByMig else s.pi)
  }

  lemma CanTakeAway(s: State, c: nat, d: nat, withPi: bool)
    requires s.onRq == Queued && s.cpu == c && !s.onCpu && L(s, c) == Free && s.mig.NoMig? && s.pi.PiFree?
    ensures Reaches(s, Moving(s, c, d, withPi))
  {
    hide Reaches; hide Sc;
    ReachNone(s);
    ByOther(s, s, MigBegin(c, withPi));
    var s1 := OtherDo(s, MigBegin(c, withPi));
    ByOther(s, s1, MigGo(d));
    var s2 := OtherDo(s1, MigGo(d));
    ByOther(s, s2, MigGo(d));
    var s3 := OtherDo(s2, MigGo(d));
    ByOther(s, s3, MigGo(d));
    assert OtherDo(s3, MigGo(d)) == Moving(s, c, d, withPi);
  }

  lemma CanPutDown(s: State)
    requires s.mig.MWant? && s.onRq == Migrating && L(s, s.cpu) == Free
    ensures Reaches(s, s.(mig := NoMig, onRq := Queued, queues := s.queues + {s.cpu},
                          lock := s.lock[s.cpu := Free], pi := if s.pi.ByMig? then PiFree else s.pi))
  {
    hide Reaches; hide Sc;
    ReachNone(s);
    ByOther(s, s, MigGo(0));
    var s1 := OtherDo(s, MigGo(0));
    ByOther(s, s1, MigGo(0));
    var s2 := OtherDo(s1, MigGo(0));
    ByOther(s, s2, MigGo(0));
    var s3 := OtherDo(s2, MigGo(0));
    ByOther(s, s3, MigGo(0));
    assert OtherDo(s3, MigGo(0)) == s.(mig := NoMig, onRq := Queued, queues := s.queues + {s.cpu},
                                       lock := s.lock[s.cpu := Free], pi := if s.pi.ByMig? then PiFree else s.pi);
  }

  /** A queued task that does not run can be moved to any CPU by a migrator, with or without `pi_lock`, */
  lemma CanMigrate(s: State, c: nat, d: nat, withPi: bool)
    requires s.onRq == Queued && s.cpu == c && !s.onCpu && s.mig.NoMig? && s.pi.PiFree?
    requires s.queues == {c} && L(s, c) == Free && L(s, d) == Free
    ensures Reaches(s, s.(cpu := d, queues := {d}, lock := s.lock[c := Free][d := Free]))
  {
    hide Reaches;
    var m := Moving(s, c, d, withPi);
    CanTakeAway(s, c, d, withPi);
    CanPutDown(m);
    assert s.queues - {c} + {d} == {d};
    ReachTrans(s, m, s.(cpu := d, queues := {d}, lock := s.lock[c := Free][d := Free]));
  }

  /** or to any other CPU by a push, with the same outcome. */
  lemma CanPush(s: State, c: nat, d: nat)
    requires s.onRq == Queued && s.cpu == c && !s.onCpu && s.push.NoPush? && c != d
    requires s.queues == {c} && L(s, c) == Free && L(s, d) == Free
    ensures Reaches(s, s.(cpu := d, queues := {d}, lock := s.lock[c := Free][d := Free]))
  {
    hide Reaches; hide Sc;
    ReachNone(s);
    ByOther(s, s, PushBegin(c, d));
    var s1 := OtherDo(s, PushBegin(c, d));
    ByOther(s, s1, PushGo);
    var s2 := OtherDo(s1, PushGo);
    ByOther(s, s2, PushGo);
    var s3 := OtherDo(s2, PushGo);
    ByOther(s, s3, PushGo);
    var s4 := OtherDo(s3, PushGo);
    ByOther(s, s4, PushGo);
    assert OtherDo(s4, PushGo) == s.(cpu := d, queues := {d}, lock := s.lock[c := Free][d := Free]);
  }

  /** Others can take a free run-queue lock, and give it back. */
  lemma CanLock(s: State, c: nat)
    requires L(s, c) == Free
    ensures Reaches(s, s.(lock := s.lock[c := Free]))
  {
    hide Reaches; hide Sc;
    ReachNone(s);
    ByOther(s, s, LockOther(c));
    var s1 := OtherDo(s, LockOther(c));
    ByOther(s, s1, UnlockOther(c));
    assert OtherDo(s1, UnlockOther(c)) == s.(lock := s.lock[c := Free]);
  }

  /** All that a round changes. */
  ghost function Round(s: State, c: nat, d: nat): State {
    var s1 := Slept(Dozing(s, c), c);
    var s3 := Running_(Awake(Called(s1, d)), d);
    s3.(state := Running, round := s3.round + 1, cond := false, me := SetState)
  }

  lemma RoundRests(s: State, c: nat, d: nat)
    requires Resting(s, c)
    ensures Resting(Round(s, c, d), d)
  {
    var r := Round(s, c, d);
    forall e ensures L(r, e) == Free && Sc(r, e) == Idle {
      assert L(s, e) == Free && Sc(s, e) == Idle;
    }
  }

  lemma CanWake(s: State, d: nat, remote: bool)
    requires s.state == Sleeping && s.onRq == Off && !s.onCpu && s.pi.PiFree? && L(s, d) == Free && s.pend.NoPend?
    ensures Reaches(s, Awake(Called(s, d)))
  {
    hide Reaches;
    CanCall(s, d);
    if remote {
      CanWakeRemotely(Called(s, d));
    } else {
      CanWakeLocally(Called(s, d));
    }
    ReachTrans(s, Called(s, d), Awake(Called(s, d)));
  }

  /** From its own code `p` can go to sleep, be woken on any CPU `d`, by either way, run there, and find the
      condition set. */
  lemma CanRound(s: State, c: nat, d: nat, remote: bool)
    requires Resting(s, c)
    ensures Reaches(s, Round(s, c, d))
  {
    assert L(s, c) == Free && Sc(s, c) == Idle && L(s, d) == Free && Sc(s, d) == Idle;
    hide Reaches;
    var s1 := Dozing(s, c);
    CanDoze(s, c);
    var s2 := Slept(s1, c);
    CanLeave(s1, c);
    ReachTrans(s, s1, s2);
    var s3 := Awake(Called(s2, d));
    CanWake(s2, d, remote);
    ReachTrans(s, s2, s3);
    var s4 := Running_(s3, d);
    CanRun(s3, d);
    ReachTrans(s, s3, s4);
    CanGoOn(s4, d);
    ReachTrans(s, s4, Round(s, c, d));
  }

  /** A CPU, and how the wake-up gets there. */
  datatype Stop = Stop(cpu: nat, remote: bool)

  /** Any sequence of CPUs is where `p` wakes in turn, round after round, in some run. */
  lemma {:induction false} CanWander(s: State, c: nat, to: seq<Stop>) returns (r: State)
    requires Resting(s, c)
    ensures Reaches(s, r) && Resting(r, if to == [] then c else to[|to| - 1].cpu) && r.round == s.round + |to|
    ensures s.done <= r.done && forall k: int :: s.round <= k < r.round ==> k in r.done
    decreases |to|
  {
    hide Reaches; hide Next; hide Resting;
    if to == [] {
      r := s;
      ReachNone(s);
    } else {
      var m := Round(s, c, to[0].cpu);
      CanRound(s, c, to[0].cpu, to[0].remote);
      RoundRests(s, c, to[0].cpu);
      r := CanWander(m, to[0].cpu, to[1..]);
      ReachTrans(s, m, r);
    }
  }

  lemma InitialRests(s: State)
    requires Initial(s)
    ensures Resting(s, s.cpu)
  {
  }
}
