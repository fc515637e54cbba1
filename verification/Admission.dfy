/** Admission of real-time bandwidth: `__rt_schedulable` walks the group tree with
    `tg_rt_schedulable`, which compares fixed-point utilisation ratios. */
module Admission {
  import opened GroupWalk
  import opened Words

  const BW_UNIT: int := 0x10_0000

  const EINVAL := -22
  const EBUSY := -16

  newtype u64 = x: int | 0 <= x < 0x1_0000_0000_0000_0000

  datatype Bandwidth = Bandwidth(period: u64, runtime: u64)

  /** The bandwidth of every group, the setting under trial, and the system-wide limit. A group of
      `busy` has real-time tasks; `limited` is `rt_bandwidth_enabled`. */
  datatype Setting = Setting(bw: map<nat, Bandwidth>, busy: set<nat>, trial: map<nat, Bandwidth>,
                             global: Bandwidth, limited: bool)

  /** `to_ratio`: the shift loses what does not fit in 64 bits. */
  function ToRatio(b: Bandwidth): (r: int)
    ensures 0 <= r
    ensures b.runtime as int == RUNTIME_INF ==> r == BW_UNIT
    ensures b.runtime as int != RUNTIME_INF && b.period == 0 ==> r == 0
  {
    if b.runtime as int == RUNTIME_INF then BW_UNIT
    else if b.period == 0 then 0
    else (b.runtime as int * BW_UNIT % TWO64) / b.period as int
  }

  /** The group's bandwidth, replaced by the setting under trial for the group being set. */
  function Effective(s: Setting, id: nat): Bandwidth {
    if id in s.trial then s.trial[id] else if id in s.bw then s.bw[id] else Bandwidth(0, 0)
  }

  function Ratio(s: Setting, id: nat): int {
    ToRatio(Effective(s, id))
  }

  function SumRatios(s: Setting, ids: seq<nat>): (r: int)
    ensures r >= 0
  {
    if ids == [] then 0 else SumRatios(s, ids[..|ids| - 1]) + Ratio(s, ids[|ids| - 1])
  }

  /** `tg_rt_schedulable` for group `id` with children `kids`; the children's sum wraps at 64 bits. */
  function Verdict(s: Setting, id: nat, kids: seq<nat>): int {
    var b := Effective(s, id);
    if b.runtime > b.period && b.runtime as int != RUNTIME_INF then EINVAL
    else if s.limited && b.runtime == 0 && id in s.busy then EBUSY
    else if ToRatio(b) > ToRatio(s.global) then EINVAL
    else if SumRatios(s, kids) % TWO64 > ToRatio(b) then EINVAL
    else 0
  }

  /** The loop of `tg_rt_schedulable` over the children. */
  method TgRtSchedulable(s: Setting, id: nat, kids: seq<nat>) returns (ret: int)
    ensures ret == Verdict(s, id, kids)
  {
    var b := Effective(s, id);
    if b.runtime > b.period && b.runtime as int != RUNTIME_INF {
      return EINVAL;
    }
    if s.limited && b.runtime == 0 && id in s.busy {
      return EBUSY;
    }
    var total := ToRatio(b);
    if total > ToRatio(s.global) {
      return EINVAL;
    }
    var sum := 0;
    for i := 0 to |kids|
      invariant sum == SumRatios(s, kids[..i]) % TWO64
    {
      assert kids[..i + 1][..i] == kids[..i];
      WrapSum(SumRatios(s, kids[..i]), Ratio(s, kids[i]));
      sum := (sum + Ratio(s, kids[i])) % TWO64;
    }
    assert kids[..|kids|] == kids;
    if sum > total {
      return EINVAL;
    }
    return 0;
  }

  lemma WrapSum(a: int, b: int)
    ensures (a % TWO64 + b) % TWO64 == (a + b) % TWO64
  {
    var q := a / TWO64;
    assert a % TWO64 + b == a + b - q * TWO64;
    SubtractMultiple(a + b, q);
  }

  lemma SubtractMultiple(x: int, q: int)
    ensures (x - q * TWO64) % TWO64 == x % TWO64
  {
    var k, m := x / TWO64, x % TWO64;
    assert x - q * TWO64 == (k - q) * TWO64 + m;
  }

  // ----- The walk with this visitor

  function Ids(ks: seq<Tree>): (r: seq<nat>)
    ensures |r| == |ks|
    ensures forall i :: 0 <= i < |ks| ==> r[i] == ks[i].id
  {
    seq(|ks|, i requires 0 <= i < |ks| => ks[i].id)
  }

  /** `kids` lists the children of every group of `t`. */
  ghost predicate Lists(kids: map<nat, seq<nat>>, t: Tree) {
    t.id in kids && kids[t.id] == Ids(t.kids) && forall k :: k in t.kids ==> Lists(kids, k)
  }

  /** `tg_rt_schedulable` on the way down, `tg_nop` on the way up. */
  function Visit(s: Setting, kids: map<nat, seq<nat>>): Visitor {
    (log: seq<Call>) =>
      if log == [] || log[|log| - 1].Up? || log[|log| - 1].id !in kids then 0
      else Verdict(s, log[|log| - 1].id, kids[log[|log| - 1].id])
  }

  /** Every group of `t` passes its own test. */
  ghost predicate Schedulable(s: Setting, t: Tree) {
    Verdict(s, t.id, Ids(t.kids)) == 0 && forall k :: k in t.kids ==> Schedulable(s, k)
  }

  /** The walk accepts exactly the trees in which every group passes. */
  lemma {:induction false} AcceptsIff(s: Setting, kids: map<nat, seq<nat>>, t: Tree, log: seq<Call>)
    requires Lists(kids, t)
    ensures Walk(t, log, Visit(s, kids)).1 == 0 <==> Schedulable(s, t)
    decreases t, 1
  {
    AcceptsKidsIff(s, kids, t.kids, log + [Down(t.id)]);
  }

  lemma {:induction false} AcceptsKidsIff(s: Setting, kids: map<nat, seq<nat>>, ks: seq<Tree>, log: seq<Call>)
    requires forall k :: k in ks ==> Lists(kids, k)
    ensures WalkKids(ks, log, Visit(s, kids)).1 == 0 <==> forall k :: k in ks ==> Schedulable(s, k)
    decreases ks, 0
  {
    if ks != [] {
      AcceptsIff(s, kids, ks[0], log);
      var l := Walk(ks[0], log, Visit(s, kids)).0;
      AcceptsKidsIff(s, kids, ks[1..], l);
      assert forall k :: k in ks <==> k == ks[0] || k in ks[1..];
    }
  }

  /** `__rt_schedulable`: the pointer walk with this visitor accepts just the schedulable trees. */
  method RtSchedulable(h: Heap, from: nat, s: Setting, kids: map<nat, seq<nat>>, ghost t: Tree) returns (ret: int)
    requires Rep(h, t) && t.id == from && Lists(kids, t)
    ensures ret == 0 <==> Schedulable(s, t)
    ensures ret == 0 <==> Schedulable(Installed(s), t)
  {
    var log;
    ret, log := WalkTgTreeFrom(h, from, Visit(s, kids), t);
    AcceptsIff(s, kids, t, []);
    TrialIsInstalled(s, t);
  }

  // ----- What is tried, and what an accepted tree looks like

  /** The setting once the trial has been put in. */
  ghost function Installed(s: Setting): Setting {
    s.(bw := s.bw + s.trial, trial := map[])
  }

  /** What a group is given, the trial included. */
  lemma EffectiveIs(s: Setting, id: nat)
    ensures id in s.bw + s.trial ==> Effective(s, id) == (s.bw + s.trial)[id]
    ensures id !in s.bw + s.trial ==> Effective(s, id) == Bandwidth(0, 0)
  {
  }

  lemma {:induction false} SumInstalled(s: Setting, ids: seq<nat>)
    ensures SumRatios(Installed(s), ids) == SumRatios(s, ids)
  {
    if ids != [] {
      SumInstalled(s, ids[..|ids| - 1]);
      EffectiveIs(s, ids[|ids| - 1]);
      EffectiveIs(Installed(s), ids[|ids| - 1]);
    }
  }

  /** Testing with a trial is testing the setting that it leads to. */
  lemma {:induction false} TrialIsInstalled(s: Setting, t: Tree)
    ensures Schedulable(s, t) <==> Schedulable(Installed(s), t)
  {
    EffectiveIs(s, t.id);
    EffectiveIs(Installed(s), t.id);
    SumInstalled(s, Ids(t.kids));
    forall k | k in t.kids ensures Schedulable(s, k) <==> Schedulable(Installed(s), k) {
      TrialIsInstalled(s, k);
    }
  }

  /** `n` is a node of `t`. */
  ghost predicate Within(t: Tree, n: Tree) {
    n == t || exists k :: k in t.kids && Within(k, n)
  }

  /** The sum of the children's ratios, each with what it is given. */
  ghost function Asked(bw: map<nat, Bandwidth>, ks: seq<Tree>): int {
    if ks == [] then 0
    else Asked(bw, ks[..|ks| - 1]) + if ks[|ks| - 1].id in bw then ToRatio(bw[ks[|ks| - 1].id]) else 0
  }

  lemma {:induction false} AskedIs(s: Setting, ks: seq<Tree>)
    ensures Asked(s.bw + s.trial, ks) == SumRatios(s, Ids(ks))
  {
    if ks != [] {
      var rest := ks[..|ks| - 1];
      AskedIs(s, rest);
      EffectiveIs(s, ks[|ks| - 1].id);
      assert Ids(ks)[..|ks| - 1] == Ids(rest);
    }
  }

  /** Every group of an accepted tree, with what the trial or else its own setting gives it: within its period,
      or unlimited; not without runtime while it has real-time tasks and limits are on; within the global
      ratio; and its children, likewise, within its own. */
  lemma {:induction false} AcceptedGroup(s: Setting, t: Tree, n: Tree)
    requires Schedulable(s, t) && Within(t, n) && n.id in s.bw + s.trial
    ensures var b := (s.bw + s.trial)[n.id];
            && (b.runtime <= b.period || b.runtime as int == RUNTIME_INF)
            && (s.limited && n.id in s.busy ==> b.runtime != 0)
            && ToRatio(b) <= ToRatio(s.global)
            && Asked(s.bw + s.trial, n.kids) % TWO64 <= ToRatio(b)
  {
    if n == t {
      EffectiveIs(s, n.id);
      AskedIs(s, n.kids);
    } else {
      var k :| k in t.kids && Within(k, n);
      AcceptedGroup(s, k, n);
    }
  }

  /** A tree in which every group is so is accepted. */
  lemma {:induction false} GroupsAccepted(s: Setting, t: Tree)
    requires forall n :: Within(t, n) ==> n.id in s.bw + s.trial
    requires forall n :: Within(t, n) ==>
               var b := (s.bw + s.trial)[n.id];
               && (b.runtime <= b.period || b.runtime as int == RUNTIME_INF)
               && (s.limited && n.id in s.busy ==> b.runtime != 0)
               && ToRatio(b) <= ToRatio(s.global)
               && Asked(s.bw + s.trial, n.kids) % TWO64 <= ToRatio(b)
    ensures Schedulable(s, t)
  {
    assert Within(t, t);
    EffectiveIs(s, t.id);
    AskedIs(s, t.kids);
    forall k | k in t.kids ensures Schedulable(s, k) {
      forall n | Within(k, n) ensures Within(t, n) {
      }
      GroupsAccepted(s, k);
    }
  }

  /** EBUSY is for a group with real-time tasks and no runtime, and for no other. */
  lemma BusyIff(s: Setting, id: nat, kids: seq<nat>)
    requires id in s.bw + s.trial
    ensures Verdict(s, id, kids) == EBUSY <==> s.limited && id in s.busy && (s.bw + s.trial)[id].runtime == 0
    ensures Verdict(s, id, kids) in {0, EBUSY, EINVAL}
  {
    EffectiveIs(s, id);
  }

  // ----- What acceptance guarantees

  /** No group of the forest `ks` is in `sel`. */
  ghost predicate Misses(ks: seq<Tree>, sel: set<nat>) {
    forall k :: k in ks ==> k.id !in sel && Misses(k.kids, sel)
  }

  /** No selected group of `t` lies below another selected one. */
  ghost predicate Antichain(t: Tree, sel: set<nat>) {
    (t.id in sel ==> Misses(t.kids, sel)) && forall k :: k in t.kids ==> Antichain(k, sel)
  }

  /** No group has so many children that a sum of their ratios could reach 2^64. */
  ghost predicate Narrow(t: Tree) {
    |t.kids| < TWO44 && forall k :: k in t.kids ==> Narrow(k)
  }

  /** The ratios of the selected groups, added up over the tree. */
  ghost function Selected(s: Setting, t: Tree, sel: set<nat>): int
    decreases t, 1
  {
    (if t.id in sel then Ratio(s, t.id) else 0) + SelectedKids(s, t.kids, sel)
  }

  ghost function SelectedKids(s: Setting, ks: seq<Tree>, sel: set<nat>): int
    decreases ks, 0
  {
    if ks == [] then 0 else Selected(s, ks[0], sel) + SelectedKids(s, ks[1..], sel)
  }

  lemma {:induction false} MissedSum(s: Setting, ks: seq<Tree>, sel: set<nat>)
    requires Misses(ks, sel)
    ensures SelectedKids(s, ks, sel) == 0
    decreases ks
  {
    if ks != [] {
      assert ks[0] in ks;
      MissedSum(s, ks[0].kids, sel);
      MissedSum(s, ks[1..], sel);
    }
  }

  lemma FloorAtMost(a: int, c: int, p: int)
    requires 0 <= a <= c * p && 0 < p
    ensures a / p <= c
  {
    if a / p >= c + 1 {
      assert (a / p) * p >= (c + 1) * p by { Scale(c + 1, a / p, p); }
    }
  }

  /** A group that passes its own test has a ratio of at most one. */
  lemma RatioAtMostOne(s: Setting, t: Tree)
    requires Schedulable(s, t)
    ensures 0 <= Ratio(s, t.id) <= BW_UNIT
  {
    var b := Effective(s, t.id);
    if b.runtime as int != RUNTIME_INF && b.period != 0 {
      Scale(b.runtime as int, b.period as int, BW_UNIT);
      FloorAtMost(b.runtime as int * BW_UNIT % TWO64, BW_UNIT, b.period as int);
    }
  }

  lemma {:induction false} SumFits(s: Setting, ks: seq<Tree>)
    requires forall k :: k in ks ==> Schedulable(s, k)
    ensures 0 <= SumRatios(s, Ids(ks)) <= |ks| * BW_UNIT
  {
    if ks != [] {
      var n := |ks| - 1;
      assert Ids(ks)[..n] == Ids(ks[..n]);
      SumFits(s, ks[..n]);
      RatioAtMostOne(s, ks[n]);
      assert n * BW_UNIT + BW_UNIT == |ks| * BW_UNIT;
    }
  }

  lemma {:induction false} SumFirst(s: Setting, ids: seq<nat>)
    requires ids != []
    ensures SumRatios(s, ids) == Ratio(s, ids[0]) + SumRatios(s, ids[1..])
  {
    if |ids| > 1 {
      var n := |ids| - 1;
      SumFirst(s, ids[..n]);
      assert ids[..n][1..] == ids[1..][..n - 1];
    } else {
      assert ids[..0] == ids[1..];
    }
  }

  /** Admission bounds every antichain: the groups of an accepted tree that do not contain one another
      have ratios summing to at most the ratio of the tree's root. */
  lemma {:induction false} AntichainBound(s: Setting, t: Tree, sel: set<nat>)
    requires Schedulable(s, t) && Antichain(t, sel) && Narrow(t)
    ensures Selected(s, t, sel) <= Ratio(s, t.id)
    decreases t, 1
  {
    if t.id in sel {
      MissedSum(s, t.kids, sel);
    } else {
      AntichainKids(s, t.kids, sel);
      SumFits(s, t.kids);
    }
  }

  lemma {:induction false} AntichainKids(s: Setting, ks: seq<Tree>, sel: set<nat>)
    requires forall k :: k in ks ==> Schedulable(s, k) && Antichain(k, sel) && Narrow(k)
    ensures SelectedKids(s, ks, sel) <= SumRatios(s, Ids(ks))
    decreases ks, 0
  {
    if ks != [] {
      AntichainBound(s, ks[0], sel);
      AntichainKids(s, ks[1..], sel);
      SumFirst(s, Ids(ks));
      assert Ids(ks)[1..] == Ids(ks[1..]);
    }
  }

  // ----- What the ratios mean

  /** The fixed-point ratio is the exact quotient, rounded down, just for runtimes below 2^44 ns. */
  lemma RatioExactIff(b: Bandwidth)
    requires b.period != 0 && b.runtime as int != RUNTIME_INF
    ensures ToRatio(b) == b.runtime as int * BW_UNIT / b.period as int <==> b.runtime as int < TWO44
  {
    var a, p := b.runtime as int * BW_UNIT, b.period as int;
    if b.runtime as int >= TWO44 {
      var k := a / TWO64;
      assert a == k * TWO64 + a % TWO64 && k >= 1;
      Scale(1, k, TWO64);
      assert a >= a % TWO64 + p;
      FloorGap(a % TWO64, a, p);
    }
  }

  lemma FloorGap(x: int, y: int, p: int)
    requires 0 < p && x + p <= y
    ensures x / p < y / p
  {
    if y / p <= x / p {
      Scale(y / p, x / p, p);
    }
  }

  /** Groups whose utilisation the ratio represents. */
  ghost predicate Finite(s: Setting, id: nat) {
    Effective(s, id).period != 0 && (Effective(s, id).runtime as int) < TWO44
  }

  ghost function Utilisation(s: Setting, id: nat): real
    requires Effective(s, id).period != 0
  {
    Effective(s, id).runtime as int as real / Effective(s, id).period as int as real
  }

  ghost predicate AllFinite(s: Setting, t: Tree, sel: set<nat>) {
    (t.id in sel ==> Finite(s, t.id)) && forall k :: k in t.kids ==> AllFinite(s, k, sel)
  }

  ghost predicate AllPeriodic(s: Setting, t: Tree, sel: set<nat>) {
    (t.id in sel ==> Effective(s, t.id).period != 0) && forall k :: k in t.kids ==> AllPeriodic(s, k, sel)
  }

  lemma FinitePeriodic(s: Setting, t: Tree, sel: set<nat>)
    requires AllFinite(s, t, sel)
    ensures AllPeriodic(s, t, sel)
  {
  }

  ghost function UtilSelected(s: Setting, t: Tree, sel: set<nat>): real
    requires AllPeriodic(s, t, sel)
    decreases t, 1
  {
    (if t.id in sel then Utilisation(s, t.id) else 0.0) + UtilKids(s, t.kids, sel)
  }

  ghost function UtilKids(s: Setting, ks: seq<Tree>, sel: set<nat>): real
    requires forall k :: k in ks ==> AllPeriodic(s, k, sel)
    decreases ks, 0
  {
    if ks == [] then 0.0 else UtilSelected(s, ks[0], sel) + UtilKids(s, ks[1..], sel)
  }

  /** How many groups of the tree are selected. */
  ghost function NumSelected(t: Tree, sel: set<nat>): nat
    decreases t, 1
  {
    (if t.id in sel then 1 else 0) + NumSelectedKids(t.kids, sel)
  }

  ghost function NumSelectedKids(ks: seq<Tree>, sel: set<nat>): nat
    decreases ks, 0
  {
    if ks == [] then 0 else NumSelected(ks[0], sel) + NumSelectedKids(ks[1..], sel)
  }

  /** What a group asks for beyond its ratio is less than one unit of 2^-20 exactly when its runtime is
      below 2^44 ns. */
  lemma RoundingLoss(s: Setting, id: nat)
    requires Effective(s, id).period != 0 && Effective(s, id).runtime as int != RUNTIME_INF
    ensures Utilisation(s, id) * 1048576.0 < (Ratio(s, id) + 1) as real <==> (Effective(s, id).runtime as int) < TWO44
  {
    var b := Effective(s, id);
    LossIff(b);
    var x, p, r := b.runtime as int, b.period as int, ToRatio(b);
    assert (x * BW_UNIT) as real == (x as real) * 1048576.0;
    assert ((r + 1) * p) as real == (r + 1) as real * p as real;
    RealQuotient(x as real, p as real, 1048576.0, (r + 1) as real);
  }

  lemma LossIff(b: Bandwidth)
    requires b.period != 0 && b.runtime as int != RUNTIME_INF
    ensures b.runtime as int * BW_UNIT < (ToRatio(b) + 1) * b.period as int <==> (b.runtime as int) < TWO44
  {
    var a, p, r := b.runtime as int * BW_UNIT, b.period as int, ToRatio(b);
    var m := a % TWO64;
    assert (r + 1) * p == r * p + p;
    assert r == m / p;
    assert r * p <= m < r * p + p by {
      assert m == (m / p) * p + m % p;
    }
    if (b.runtime as int) < TWO44 {
      assert m == a;
    } else {
      var k := a / TWO64;
      assert a == k * TWO64 + m && k >= 1;
      Scale(1, k, TWO64);
    }
  }

  lemma RealQuotient(x: real, p: real, u: real, c: real)
    requires p > 0.0
    ensures x / p * u < c <==> x * u < c * p
  {
    var q := x / p;
    assert q * p == x;
    assert q * u * p == x * u;
    if q * u >= c {
      assert q * u * p >= c * p;
    } else {
      assert (c - q * u) * p > 0.0;
    }
  }

  lemma {:induction false} TrueUtilisation(s: Setting, t: Tree, sel: set<nat>)
    requires AllFinite(s, t, sel)
    ensures AllPeriodic(s, t, sel)
    ensures UtilSelected(s, t, sel) * 1048576.0 <= (Selected(s, t, sel) + NumSelected(t, sel)) as real
    ensures NumSelected(t, sel) > 0 ==>
            UtilSelected(s, t, sel) * 1048576.0 < (Selected(s, t, sel) + NumSelected(t, sel)) as real
    decreases t, 1
  {
    FinitePeriodic(s, t, sel);
    TrueUtilisationKids(s, t.kids, sel);
    if t.id in sel {
      RoundingLoss(s, t.id);
    }
  }

  lemma {:induction false} TrueUtilisationKids(s: Setting, ks: seq<Tree>, sel: set<nat>)
    requires forall k :: k in ks ==> AllFinite(s, k, sel)
    ensures forall k :: k in ks ==> AllPeriodic(s, k, sel)
    ensures UtilKids(s, ks, sel) * 1048576.0 <= (SelectedKids(s, ks, sel) + NumSelectedKids(ks, sel)) as real
    ensures NumSelectedKids(ks, sel) > 0 ==>
              UtilKids(s, ks, sel) * 1048576.0 < (SelectedKids(s, ks, sel) + NumSelectedKids(ks, sel)) as real
    decreases ks, 0
  {
    forall k | k in ks ensures AllPeriodic(s, k, sel) {
      FinitePeriodic(s, k, sel);
    }
    if ks != [] {
      TrueUtilisation(s, ks[0], sel);
      TrueUtilisationKids(s, ks[1..], sel);
    }
  }

  /** When `__rt_schedulable` accepts a trial, then with it put in the ratios of any antichain stay within the
      global ratio, and the true utilisation of k > 0 of its finite groups exceeds that by less than k / 2^20. */
  lemma AdmissionBounds(s: Setting, kids: map<nat, seq<nat>>, t: Tree, sel: set<nat>)
    requires Lists(kids, t) && Narrow(t) && Antichain(t, sel)
    requires Walk(t, [], Visit(s, kids)).1 == 0
    ensures Selected(Installed(s), t, sel) <= Ratio(Installed(s), t.id) <= ToRatio(s.global)
    ensures AllFinite(Installed(s), t, sel) && NumSelected(t, sel) > 0 ==>
              && AllPeriodic(Installed(s), t, sel)
              && UtilSelected(Installed(s), t, sel) * 1048576.0 < (ToRatio(s.global) + NumSelected(t, sel)) as real
  {
    AcceptsIff(s, kids, t, []);
    TrialIsInstalled(s, t);
    AntichainBound(Installed(s), t, sel);
    if AllFinite(Installed(s), t, sel) {
      TrueUtilisation(Installed(s), t, sel);
    }
  }

  /** Above 2^44 ns the guarantee is lost: two groups given 2^41 microseconds in every 2^41, each a whole
      CPU, are admitted under a root that grants 95 percent, because their ratios wrap to zero; their
      utilisation is far above the global ratio and two units. */
  lemma OverflowAdmits()
    ensures var us: u64 := 2_199_023_255_552;
            var whole := Bandwidth(us * 1000, us * 1000);
            var most := Bandwidth(1_000_000_000, 950_000_000);
            var s := Setting(map[0 := most, 1 := whole, 2 := whole], {}, map[], most, true);
            var t := Node(0, [Node(1, []), Node(2, [])]);
            && Schedulable(s, t) && Antichain(t, {1, 2}) && Narrow(t) && AllPeriodic(s, t, {1, 2})
            && NumSelected(t, {1, 2}) == 2 && UtilSelected(s, t, {1, 2}) == 2.0
            && UtilSelected(s, t, {1, 2}) * 1048576.0 >= (ToRatio(s.global) + 2) as real
  {
    var us: u64 := 2_199_023_255_552;
    var whole := Bandwidth(us * 1000, us * 1000);
    var most := Bandwidth(1_000_000_000, 950_000_000);
    var s := Setting(map[0 := most, 1 := whole, 2 := whole], {}, map[], most, true);
    var a, b := Node(1, []), Node(2, []);
    var t, sel := Node(0, [a, b]), {1, 2};
    assert ToRatio(whole) == 0;
    assert ToRatio(most) == 996_147;
    assert Ids(a.kids) == [] && Ids(b.kids) == [];
    assert Ids(t.kids) == [1, 2];
    assert SumRatios(s, [1, 2]) == 0 by {
      assert [1, 2][..1] == [1];
      assert SumRatios(s, [1]) == 0 by { assert [1][..0] == []; }
    }
    assert Schedulable(s, a) && Schedulable(s, b);
    assert t.kids[1..] == [b] && [b][1..] == [];
    assert AllPeriodic(s, a, sel) && AllPeriodic(s, b, sel);
    assert Utilisation(s, 1) == 1.0 && Utilisation(s, 2) == 1.0;
    assert NumSelected(a, sel) == 1 && NumSelectedKids([b], sel) == 1;
    assert UtilSelected(s, a, sel) == 1.0 && UtilKids(s, [b], sel) == 1.0;
  }
}
