/** Throttling of one CPU's real-time queue: time is charged as real-time tasks run, the period timer
    refills, and a queue over its limit leaves the CPU until it is refilled. No groups, and no runtime
    is shared between CPUs. */
module RtBandwidth {

  /** What happens to the queue; `now` is the time since the last charge, which may be negative. */
  datatype Event =
    | Tick(now: int)
    | Schedule(now: int, offered: bool)
    | Wake
    | Block(now: int)
    | Timer(overrun: nat)

  /** The refills, in whole periods, that a run delivers. */
  ghost function Periods(es: seq<Event>): nat {
    if es == [] then 0
    else Periods(es[..|es| - 1]) + if es[|es| - 1].Timer? then es[|es| - 1].overrun else 0
  }

  /** The queue's fields at one moment, with the accounts of what was charged and refilled. */
  datatype Moment = Moment(
    time: nat, throttled: bool, nr: nat, queued: bool, running: bool, charged: nat, refilled: nat)

  /** `now` is charged to the running task, if there is one, and throttles the queue past its runtime. */
  ghost predicate Charges(s: Moment, r: Moment, now: int, runtime: nat) {
    && r.charged == s.charged + (if s.running && now > 0 then now else 0) && r.refilled == s.refilled
    && r.throttled == (s.throttled || r.time > runtime)
  }

  /** What each event does. */
  ghost predicate Did(s: Moment, e: Event, r: Moment, runtime: nat) {
    match e
    case Tick(now) => Charges(s, r, now, runtime) && r.nr == s.nr && r.running == s.running
    case Schedule(now, offered) => Charges(s, r, now, runtime) && r.nr == s.nr && r.running == (r.queued && offered)
    case Wake => r == s.(nr := s.nr + 1, queued := !s.throttled)
    case Block(now) =>
      if s.nr == 0 then r == s
      else Charges(s, r, now, runtime) && r.nr == s.nr - 1 && r.running == s.running
    case Timer(overrun) =>
      var back := if s.time < overrun * runtime then s.time else overrun * runtime;
      && r.charged == s.charged && r.refilled == s.refilled + back && r.nr == s.nr && r.running == s.running
      && r.throttled == (s.throttled && r.time >= runtime)
  }

  /** Time used is what was charged and not refilled, and the queue offers tasks unless throttled. */
  ghost predicate Adds(s: Moment) {
    s.time == s.charged - s.refilled && (s.queued <==> s.nr > 0 && !s.throttled)
  }

  /** `trace` shows the queue before the events and after each, and every event did what it should. */
  ghost predicate Shows(trace: seq<Moment>, es: seq<Event>, runtime: nat) {
    && |trace| == |es| + 1
    && forall i :: 0 <= i < |es| ==> Shown(trace[i], es[i], trace[i + 1], runtime)
  }

  ghost predicate Shown(s: Moment, e: Event, r: Moment, runtime: nat) {
    Did(s, e, r, runtime) && Adds(r)
  }

  lemma ShowsNext(trace: seq<Moment>, es: seq<Event>, runtime: nat, e: Event, r: Moment)
    requires Shows(trace, es, runtime) && Shown(trace[|es|], e, r, runtime)
    ensures Shows(trace + [r], es + [e], runtime)
  {
    hide Shown;
  }

  /** The refills are paid for by the periods of the run. */
  ghost predicate Paid(refilled: nat, es: seq<Event>, runtime: nat) {
    refilled <= Periods(es) * runtime
  }

  lemma PaidNext(refilled: nat, es: seq<Event>, runtime: nat, e: Event, more: nat)
    requires Paid(refilled, es, runtime) && more <= (if e.Timer? then e.overrun * runtime else 0)
    ensures Paid(refilled + more, es + [e], runtime)
  {
    assert (es + [e])[..|es|] == es;
    if e.Timer? {
      assert (Periods(es) + e.overrun) * runtime == Periods(es) * runtime + e.overrun * runtime;
    }
  }

  lemma NothingPaid(es: seq<Event>, runtime: nat)
    ensures Paid(0, es, runtime)
  {
    assert Periods(es) * runtime >= 0;
  }

  lemma PaidBound(refilled: nat, es: seq<Event>, runtime: nat)
    requires Paid(refilled, es, runtime)
    ensures refilled + runtime <= (Periods(es) + 1) * runtime
  {
    assert (Periods(es) + 1) * runtime == Periods(es) * runtime + runtime;
  }

  class RtRq {
    const runtime: nat
    const period: nat
    var time: nat
    var throttled: bool
    var nr: nat
    var queued: bool
    /** Whether `rq->curr` is a real-time task. */
    var running: bool

    /** All time charged and refilled so far; what was charged past the limit since the queue last
        crossed it; and whether the CPU has switched since then. */
    ghost var charged: nat
    ghost var refilled: nat
    ghost var excess: nat
    ghost var switched: bool

    ghost predicate Valid()
      reads this
    {
      && 0 < runtime < period
      && charged == time + refilled
      && time <= runtime + (if throttled then excess else 0)
      && (throttled ==> time >= runtime)
      && (queued <==> nr > 0 && !throttled)
      && (throttled && switched ==> !running)
    }

    ghost function View(): Moment
      reads this
    {
      Moment(time, throttled, nr, queued, running, charged, refilled)
    }

    constructor (runtime: nat, period: nat)
      requires 0 < runtime < period
      ensures Valid() && charged == 0 && refilled == 0 && !running && nr == 0 && this.runtime == runtime
    {
      this.runtime, this.period := runtime, period;
      time, throttled, nr, queued, running := 0, false, 0, false, false;
      charged, refilled, excess, switched := 0, 0, 0, false;
    }

    /** `sched_rt_runtime_exceeded`: throttle on crossing the limit. */
    method RuntimeExceeded() returns (exceeded: bool)
      requires runtime < period
      modifies this`throttled, this`queued
      ensures exceeded == throttled == (old(throttled) || time > runtime)
      ensures queued == (old(queued) && (old(throttled) || !throttled))
    {
      if throttled {
        return true;
      }
      if runtime >= period {
        return false;
      }
      if time > runtime {
        throttled := true;
        queued := false;
        return true;
      }
      return false;
    }

    /** `update_curr_rt`. Only a running task is charged; past the limit, only until the next switch. */
    method UpdateCurr(now: int)
      requires Valid()
      modifies this`time, this`throttled, this`queued, this`charged, this`excess, this`switched
      ensures Valid() && nr == old(nr)
      ensures charged == old(charged) + if running && now > 0 then now else 0
      ensures throttled == (old(throttled) || time > runtime)
      ensures excess != old(excess) ==> throttled && !switched
      ensures old(throttled) ==> excess == old(excess) + (charged - old(charged)) && switched == old(switched)
      ensures !old(throttled) && throttled ==> excess == time - runtime
    {
      if !running || now <= 0 {
        return;
      }
      time := time + now;
      charged := charged + now;
      if throttled {
        excess := excess + now;
      } else if time > runtime {
        excess, switched := time - runtime, false;
      }
      var _ := RuntimeExceeded();
    }

    /** `do_sched_rt_period_timer` for this queue. */
    method PeriodTimer(overrun: nat)
      requires Valid()
      modifies this`time, this`throttled, this`queued, this`refilled
      ensures Valid() && refilled <= old(refilled) + overrun * runtime
      ensures refilled - old(refilled) == if old(time) < overrun * runtime then old(time) else overrun * runtime
      ensures throttled == (old(throttled) && time >= runtime)
    {
      assert overrun * runtime >= 0;
      if time == 0 && nr == 0 {
        return;
      }
      if time != 0 {
        var back := if time < overrun * runtime then time else overrun * runtime;
        time, refilled := time - back, refilled + back;
        if throttled && time < runtime {
          throttled := false;
          queued := nr > 0;
        }
      } else if nr != 0 && !throttled {
        queued := true;
      }
    }

    /** Picking the next task: the queue is charged first and offers nothing while throttled. */
    method Pick(now: int, offered: bool)
      requires Valid()
      modifies this
      ensures Valid() && nr == old(nr) && running == (queued && offered) && (throttled ==> !running)
      ensures charged == old(charged) + if old(running) && now > 0 then now else 0
      ensures refilled == old(refilled) && throttled == (old(throttled) || time > runtime)
    {
      UpdateCurr(now);
      running := queued && offered;
      switched := true;
    }

    method EnqueueTask()
      requires Valid()
      modifies this`nr, this`queued
      ensures Valid() && nr == old(nr) + 1
    {
      nr := nr + 1;
      queued := !throttled;
    }

    method DequeueTask(now: int)
      requires Valid() && nr > 0
      modifies this
      ensures Valid() && nr == old(nr) - 1 && running == old(running) && refilled == old(refilled)
      ensures charged == old(charged) + if running && now > 0 then now else 0
      ensures throttled == (old(throttled) || time > runtime)
    {
      UpdateCurr(now);
      nr := nr - 1;
      queued := nr > 0 && !throttled;
    }

    method Handle(e: Event)
      requires Valid()
      modifies this
      ensures old(refilled) <= refilled <= old(refilled) + (if e.Timer? then e.overrun * runtime else 0)
      ensures Valid() && Shown(old(View()), e, View(), runtime)
    {
      match e {
        case Tick(now) => UpdateCurr(now);
        case Schedule(now, offered) => Pick(now, offered);
        case Wake => EnqueueTask();
        case Block(now) => if nr > 0 { DequeueTask(now); }
        case Timer(overrun) => PeriodTimer(overrun);
      }
    }

    /** Over any run from the start: the time charged is at most one runtime for each period refilled
        and one more, plus what was charged between crossing the limit and the next switch. `trace` is the
        run, event by event. */
    method Run(es: seq<Event>) returns (ghost trace: seq<Moment>)
      requires Valid() && charged == 0 && refilled == 0
      modifies this
      ensures Valid() && Shows(trace, es, runtime) && trace[0] == old(View()) && trace[|es|] == View()
      ensures charged <= (Periods(es) + 1) * runtime + (if throttled then excess else 0)
    {
      hide Paid; hide Shown; hide Periods;
      assert Paid(0, es[..0], runtime) by { NothingPaid(es[..0], runtime); }
      trace := [View()];
      var i := 0;
      while i < |es|
        invariant 0 <= i <= |es| && Valid() && Paid(refilled, es[..i], runtime)
        invariant Shows(trace, es[..i], runtime) && trace[0] == old(View()) && trace[i] == View()
      {
        ghost var before := refilled;
        Handle(es[i]);
        assert es[..i + 1] == es[..i] + [es[i]];
        ShowsNext(trace, es[..i], runtime, es[i], View());
        PaidNext(before, es[..i], runtime, es[i], refilled - before);
        trace := trace + [View()];
        i := i + 1;
      }
      assert es[..i] == es;
      PaidBound(refilled, es, runtime);
    }
  }
}
