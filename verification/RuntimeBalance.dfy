/** Runtime borrowing between the CPUs of one root domain: `do_balance_runtime`,
    `__disable_runtime` and `__enable_runtime`.

    `runtime[i]` is the `rt_runtime` of CPU i's queue, an unsigned 64-bit number in which the largest
    value marks a disabled queue. */
module RuntimeBalance {
  import opened Words

  /** Conversions of the C arithmetic. */
  function U64(x: int): int { x % TWO64 }

  function S64(x: int): int {
    if U64(x) < TWO63 then U64(x) else U64(x) - TWO64
  }

  lemma WordExact(x: int)
    ensures 0 <= x < TWO64 ==> U64(x) == x
    ensures -TWO63 <= x < TWO63 ==> S64(x) == x
  {
    if -TWO63 <= x < 0 {
      assert U64(x) == x + TWO64;
    }
  }

  // ----- What is conserved

  ghost function Total(r: seq<int>): int {
    if r == [] then 0 else (if r[0] == RUNTIME_INF then 0 else r[0]) + Total(r[1..])
  }

  ghost function Count(r: seq<int>): nat {
    if r == [] then 0 else (if r[0] == RUNTIME_INF then 0 else 1) + Count(r[1..])
  }

  ghost predicate NonNegative(r: seq<int>) {
    forall i :: 0 <= i < |r| ==> 0 <= r[i]
  }

  /** The enabled queues together hold exactly their number times the group's runtime. */
  ghost predicate Conserved(r: seq<int>, group: int) {
    NonNegative(r) && Total(r) == Count(r) * group
  }

  /** Sizes for which no 64-bit quantity of the algorithm can wrap. */
  ghost predicate Fits(n: nat, group: int, period: int) {
    0 <= group && 0 < period < TWO63 && n * group < TWO63
  }

  ghost predicate SameEnabled(r: seq<int>, r': seq<int>) {
    |r| == |r'| && forall i :: 0 <= i < |r| ==> (r[i] == RUNTIME_INF <==> r'[i] == RUNTIME_INF)
  }

  lemma {:induction false} CountSame(r: seq<int>, r': seq<int>)
    requires SameEnabled(r, r')
    ensures Count(r) == Count(r')
  {
    if r != [] {
      CountSame(r[1..], r'[1..]);
    }
  }

  lemma {:induction false} CountAtMost(r: seq<int>)
    ensures Count(r) <= |r|
  {
    if r != [] {
      CountAtMost(r[1..]);
    }
  }

  lemma {:induction false} UpdateTotal(r: seq<int>, i: nat, v: int)
    requires i < |r|
    ensures Total(r[i := v]) == Total(r) - (if r[i] == RUNTIME_INF then 0 else r[i]) + (if v == RUNTIME_INF then 0
            else v)
    ensures Count(r[i := v]) == Count(r) - (if r[i] == RUNTIME_INF then 0 else 1) + (if v == RUNTIME_INF then 0 else 1)
  {
    if i == 0 {
      assert r[i := v][1..] == r[1..];
    } else {
      assert r[i := v][1..] == r[1..][i - 1 := v];
      UpdateTotal(r[1..], i - 1, v);
    }
  }

  lemma {:induction false} AtMostTotal(r: seq<int>, i: nat)
    requires NonNegative(r) && i < |r| && r[i] != RUNTIME_INF
    ensures 0 <= r[i] <= Total(r)
  {
    if i == 0 {
      TotalNonNegative(r[1..]);
    } else {
      AtMostTotal(r[1..], i - 1);
    }
  }

  lemma {:induction false} TotalNonNegative(r: seq<int>)
    requires NonNegative(r)
    ensures Total(r) >= 0
  {
    if r != [] {
      TotalNonNegative(r[1..]);
    }
  }

  /** The enabled queues hold less than 2^63 together, so none is mistaken for a disabled one. */
  ghost predicate Sized(r: seq<int>, period: int) {
    NonNegative(r) && Total(r) < TWO63 && 0 < period < TWO63
  }

  lemma ConservedSized(r: seq<int>, group: int, period: int)
    requires Conserved(r, group) && Fits(|r|, group, period)
    ensures Sized(r, period)
  {
    CountAtMost(r);
    Scale(Count(r), |r|, group);
  }

  // ----- Borrowing

  /** `diff` of `do_balance_runtime`: what a queue with `lender` left over lends a borrower. */
  ghost function Loan(spare: int, weight: int, borrower: int, period: int): int
    requires spare > 0 && weight > 0
  {
    var part := spare / weight;
    if borrower + part > period then period - borrower else part
  }

  /** The loop of `do_balance_runtime` from CPU `i` on, for the queue of CPU `b`. */
  ghost function Borrow(r: seq<int>, time: seq<int>, period: int, b: nat, i: nat): (r': seq<int>)
    requires |time| == |r| && b < |r| && i <= |r|
    ensures |r'| == |r|
    decreases |r| - i
  {
    if i == |r| then r
    else if i == b || r[i] == RUNTIME_INF || r[i] - time[i] <= 0 then Borrow(r, time, period, b, i + 1)
    else
      var diff := Loan(r[i] - time[i], |r|, r[b], period);
      var r1 := r[i := r[i] - diff][b := r[b] + diff];
      if r1[b] == period then r1 else Borrow(r1, time, period, b, i + 1)
  }

  lemma LoanBounds(spare: int, weight: int, borrower: int, period: int)
    requires spare > 0 && weight > 0
    ensures Loan(spare, weight, borrower, period) <= spare
    ensures borrower <= period ==> 0 <= Loan(spare, weight, borrower, period) <= spare / weight
    ensures borrower + Loan(spare, weight, borrower, period) <= period
    ensures borrower > period ==> Loan(spare, weight, borrower, period) == period - borrower
  {
    ShareAtMost(spare, weight);
  }

  lemma ShareAtMost(x: int, n: int)
    requires x > 0 && n > 0
    ensures 0 <= x / n <= x
  {
    if x / n > x {
      Scale(1, n, x / n);
    }
  }

  /** Runtime has only moved between enabled queues. */
  ghost predicate Moved(r: seq<int>, r': seq<int>) {
    NonNegative(r') && SameEnabled(r, r') && Total(r') == Total(r) && Count(r') == Count(r)
  }

  /** What one lender's turn does. */
  lemma BorrowStep(r: seq<int>, time: seq<int>, period: int, b: nat, i: nat)
    requires Sized(r, period) && |time| == |r|
    requires b < |r| && i < |r| && i != b && r[b] != RUNTIME_INF && r[i] != RUNTIME_INF && 0 <= time[i] < r[i]
    ensures var diff := Loan(r[i] - time[i], |r|, r[b], period);
            var r1 := r[i := r[i] - diff][b := r[b] + diff];
            Moved(r, r1) && time[i] <= r1[i] && 0 <= r1[b] <= period && r[i] + r[b] < TWO63
  {
    hide Loan;
    var diff := Loan(r[i] - time[i], |r|, r[b], period);
    LoanBounds(r[i] - time[i], |r|, r[b], period);
    PairAtMost(r, i, b);
    Transfer(r, i, b, diff);
  }

  /** Moving `d` between two enabled queues moves nothing else. */
  lemma Transfer(r: seq<int>, i: nat, b: nat, d: int)
    requires i < |r| && b < |r| && i != b && r[i] != RUNTIME_INF && r[b] != RUNTIME_INF
    requires r[i] - d != RUNTIME_INF && r[b] + d != RUNTIME_INF
    ensures var r1 := r[i := r[i] - d][b := r[b] + d];
            Total(r1) == Total(r) && Count(r1) == Count(r) && SameEnabled(r, r1)
  {
    UpdateTotal(r, i, r[i] - d);
    UpdateTotal(r[i := r[i] - d], b, r[b] + d);
  }

  lemma PairAtMost(r: seq<int>, i: nat, j: nat)
    requires NonNegative(r) && i < |r| && j < |r| && i != j && r[i] != RUNTIME_INF && r[j] != RUNTIME_INF
    ensures r[i] + r[j] <= Total(r)
  {
    UpdateTotal(r, i, 0);
    AtMostTotal(r[i := 0], j);
  }

  /** Borrowing moves runtime and makes none, never leaves the borrower above the period unless it started
      there, and never takes a lender below the time it has used. */
  ghost predicate Balanced(r: seq<int>, r': seq<int>, time: seq<int>, period: int, b: nat)
    requires |time| == |r| == |r'| && b < |r|
  {
    && Moved(r, r')
    && (r[b] <= period ==> r[b] <= r'[b] <= period)
    && (r[b] > period ==> r'[b] == r[b] || r'[b] == period)
    && (forall j :: 0 <= j < |r| && j != b ==>
          r'[j] == r[j] || (time[j] <= r'[j] && (r[b] <= period ==> r'[j] <= r[j])))
  }

  lemma {:induction false} BorrowBalances(r: seq<int>, time: seq<int>, period: int, b: nat, i: nat)
    requires Sized(r, period) && |time| == |r| && b < |r| && i <= |r|
    requires r[b] != RUNTIME_INF && NonNegative(time)
    ensures Balanced(r, Borrow(r, time, period, b, i), time, period, b)
    ensures forall j :: 0 <= j < i && j != b ==> Borrow(r, time, period, b, i)[j] == r[j]
    decreases |r| - i
  {
    hide Loan; hide Total; hide Count;
    if i == |r| {
    } else if i == b || r[i] == RUNTIME_INF || r[i] - time[i] <= 0 {
      BorrowBalances(r, time, period, b, i + 1);
    } else {
      BorrowStep(r, time, period, b, i);
      var diff := Loan(r[i] - time[i], |r|, r[b], period);
      LoanBounds(r[i] - time[i], |r|, r[b], period);
      var r1 := r[i := r[i] - diff][b := r[b] + diff];
      if r1[b] != period {
        BorrowBalances(r1, time, period, b, i + 1);
      }
    }
  }

  // ----- Exactly what is lent

  /** The 1/n part of its spare time that the queue of CPU `j` offers the queue of CPU `b`. */
  ghost function Offer(r: seq<int>, time: seq<int>, b: nat, j: nat): (x: int)
    requires |time| == |r| && j < |r|
    ensures x >= 0
  {
    if j == b || r[j] == RUNTIME_INF || r[j] <= time[j] then 0
    else
      ShareAtMost(r[j] - time[j], |r|);
      (r[j] - time[j]) / |r|
  }

  /** The offers of the CPUs from `i` up to `j`. */
  ghost function Offers(r: seq<int>, time: seq<int>, b: nat, i: nat, j: nat): (x: int)
    requires |time| == |r| && i <= j <= |r|
    ensures x >= 0
    decreases j - i
  {
    if i == j then 0 else Offer(r, time, b, i) + Offers(r, time, b, i + 1, j)
  }

  function Least(x: int, y: int): int { if x < y then x else y }

  function Most(x: int, y: int): int { if x < y then y else x }

  lemma {:induction false} OffersFrame(r: seq<int>, r1: seq<int>, time: seq<int>, b: nat, i: nat, j: nat)
    requires |time| == |r| == |r1| && i <= j <= |r| && forall k :: i <= k < |r| && k != b ==> r1[k] == r[k]
    ensures Offers(r1, time, b, i, j) == Offers(r, time, b, i, j)
    decreases j - i
  {
    if i < j {
      OffersFrame(r, r1, time, b, i + 1, j);
    }
  }

  /** What each queue holds after a borrower at or below the period has gone over the CPUs from `i` on: each
      gives its offer, in order, until the borrower is at the period. */
  ghost predicate Lent(r: seq<int>, r': seq<int>, time: seq<int>, period: int, b: nat, i: nat)
    requires |time| == |r| == |r'| && b < |r| && i <= |r|
  {
    && r'[b] == Least(period, r[b] + Offers(r, time, b, i, |r|))
    && (forall j :: 0 <= j < i && j != b ==> r'[j] == r[j])
    && (forall j :: i <= j < |r| && j != b ==> r'[j] == Gives(r, time, period, b, i, j))
  }

  ghost function Gives(r: seq<int>, time: seq<int>, period: int, b: nat, i: nat, j: nat): int
    requires |time| == |r| && b < |r| && i <= j < |r|
  {
    r[j] - Least(Offer(r, time, b, j), Most(0, period - r[b] - Offers(r, time, b, i, j)))
  }

  lemma {:induction false} BorrowExact(r: seq<int>, time: seq<int>, period: int, b: nat, i: nat)
    requires |time| == |r| && b < |r| && i <= |r| && r[b] <= period
    ensures Lent(r, Borrow(r, time, period, b, i), time, period, b, i)
    decreases |r| - i
  {
    if i < |r| {
      hide Loan;
      if i == b || r[i] == RUNTIME_INF || r[i] - time[i] <= 0 {
        BorrowExact(r, time, period, b, i + 1);
        LentOver(r, r, Borrow(r, time, period, b, i), time, period, b, i, 0);
      } else {
        var diff := Loan(r[i] - time[i], |r|, r[b], period);
        var r1 := r[i := r[i] - diff][b := r[b] + diff];
        assert diff == Least(Offer(r, time, b, i), period - r[b]) by { LoanIs(r[i] - time[i], |r|, r[b], period); }
        if r1[b] == period {
          LentStops(r, r1, time, period, b, i);
        } else {
          BorrowExact(r1, time, period, b, i + 1);
          LentOver(r, r1, Borrow(r, time, period, b, i), time, period, b, i, diff);
        }
      }
    }
  }

  lemma LoanIs(spare: int, weight: int, borrower: int, period: int)
    requires spare > 0 && weight > 0 && borrower <= period
    ensures Loan(spare, weight, borrower, period) == Least(spare / weight, period - borrower)
  {
  }

  /** The turn of CPU `i`, which gave its whole offer `x`, and then those behind it. */
  lemma LentOver(
    r: seq<int>, r1: seq<int>, r': seq<int>, time: seq<int>, period: int, b: nat, i: nat, x: int)
    requires |time| == |r| == |r1| == |r'| && b < |r| && i < |r| && r[b] <= period && x == Offer(r, time, b, i)
    requires r1 == if i == b then r else r[i := r[i] - x][b := r[b] + x]
    requires r[b] + x <= period && Lent(r1, r', time, period, b, i + 1)
    ensures Lent(r, r', time, period, b, i)
  {
    OffersFrame(r, r1, time, b, i + 1, |r|);
    forall j | i <= j < |r| && j != b ensures r'[j] == Gives(r, time, period, b, i, j) {
      if j > i {
        OffersFrame(r, r1, time, b, i + 1, j);
      }
    }
  }

  /** The turn of CPU `i`, which brought the borrower to the period. */
  lemma LentStops(r: seq<int>, r1: seq<int>, time: seq<int>, period: int, b: nat, i: nat)
    requires |time| == |r| && b < |r| && i < |r| && i != b && r[b] <= period
    requires var diff := period - r[b];
             Offer(r, time, b, i) >= diff && r1 == r[i := r[i] - diff][b := r[b] + diff]
    ensures Lent(r, r1, time, period, b, i)
  {
    assert Offers(r, time, b, i + 1, |r|) >= 0;
    forall j | i <= j < |r| && j != b ensures r1[j] == Gives(r, time, period, b, i, j) {
      if j > i {
        assert Offers(r, time, b, i + 1, j) >= 0;
      }
    }
  }

  /** A borrower above the period gives what it has too much to the first CPU with spare time. */
  lemma {:induction false} BorrowAbove(r: seq<int>, time: seq<int>, period: int, b: nat, i: nat, f: nat)
    requires |time| == |r| && b < |r| && i <= f <= |r| && r[b] > period
    requires forall j :: i <= j < f && j != b ==> r[j] == RUNTIME_INF || r[j] <= time[j]
    requires f < |r| ==> f != b && r[f] != RUNTIME_INF && r[f] > time[f]
    ensures Borrow(r, time, period, b, i) == if f == |r| then r else r[f := r[f] + (r[b] - period)][b := period]
    decreases |r| - i
  {
    if i < f {
      BorrowAbove(r, time, period, b, i + 1, f);
    } else if i < |r| {
      LoanBounds(r[i] - time[i], |r|, r[b], period);
    }
  }

  // ----- Reclaiming

  /** The greedy loop of `__disable_runtime` from CPU `i` on; returns what is left of `want`. */
  ghost function Reclaim(r: seq<int>, want: int, d: nat, i: nat): (res: (seq<int>, int))
    requires d < |r| && i <= |r|
    ensures |res.0| == |r| && res.0[d] == r[d]
    decreases |r| - i
  {
    if i == |r| then (r, want)
    else if i == d || r[i] == RUNTIME_INF then Reclaim(r, want, d, i + 1)
    else
      var diff := if want > 0 then (if r[i] < want then r[i] else want) else want;
      if want == diff then (r[i := r[i] - diff], 0) else Reclaim(r[i := r[i] - diff], want - diff, d, i + 1)
  }

  /** What the enabled queues from `i` on hold, `d` aside. */
  ghost function Rest(r: seq<int>, d: nat, i: nat): int
    requires i <= |r|
    decreases |r| - i
  {
    if i == |r| then 0 else (if i == d || r[i] == RUNTIME_INF then 0 else r[i]) + Rest(r, d, i + 1)
  }

  ghost predicate OtherFrom(r: seq<int>, d: nat, i: nat) {
    exists j :: i <= j < |r| && j != d && r[j] != RUNTIME_INF
  }

  lemma {:induction false} RestFrame(r: seq<int>, r': seq<int>, d: nat, i: nat)
    requires |r| == |r'| && i <= |r| && forall j :: i <= j < |r| ==> r[j] == r'[j]
    ensures Rest(r, d, i) == Rest(r', d, i)
    decreases |r| - i
  {
    if i < |r| {
      RestFrame(r, r', d, i + 1);
    }
  }

  /** Greedy reclaim takes exactly `want` whenever the others hold that much, or, when runtime is to be
      given back, whenever another queue is enabled. */
  lemma {:induction false} ReclaimAll(r: seq<int>, want: int, d: nat, i: nat)
    requires NonNegative(r) && d < |r| && i <= |r| && want != 0
    requires want > 0 ==> want <= Rest(r, d, i)
    requires want < 0 ==> OtherFrom(r, d, i)
    requires Total(r) - want < RUNTIME_INF && Total(r) < RUNTIME_INF
    ensures var (r', left) := Reclaim(r, want, d, i);
            left == 0 && NonNegative(r') && SameEnabled(r, r') && Total(r') == Total(r) - want
    decreases |r| - i
  {
    if i == |r| {
    } else if i == d || r[i] == RUNTIME_INF {
      ReclaimAll(r, want, d, i + 1);
    } else {
      var diff := if want > 0 then (if r[i] < want then r[i] else want) else want;
      AtMostTotal(r, i);
      UpdateTotal(r, i, r[i] - diff);
      if want != diff {
        RestFrame(r, r[i := r[i] - diff], d, i + 1);
        ReclaimAll(r[i := r[i] - diff], want - diff, d, i + 1);
      }
    }
  }

  /** What the enabled queues from `i` up to `j` hold, `d` aside. */
  ghost function HeldBefore(r: seq<int>, d: nat, i: nat, j: nat): (x: int)
    requires NonNegative(r) && i <= j <= |r|
    ensures x >= 0
    decreases j - i
  {
    if i == j then 0
    else (if i == d || r[i] == RUNTIME_INF then 0 else r[i]) + HeldBefore(r, d, i + 1, j)
  }

  lemma {:induction false} HeldFrame(r: seq<int>, r1: seq<int>, d: nat, i: nat, j: nat)
    requires NonNegative(r) && NonNegative(r1) && |r| == |r1| && i <= j <= |r|
    requires forall k :: i <= k < |r| ==> r1[k] == r[k]
    ensures HeldBefore(r1, d, i, j) == HeldBefore(r, d, i, j)
    decreases j - i
  {
    if i < j {
      HeldFrame(r, r1, d, i + 1, j);
    }
  }

  ghost predicate Taken(r: seq<int>, r': seq<int>, want: int, d: nat, i: nat)
    requires NonNegative(r) && |r'| == |r| && d < |r| && i <= |r|
  {
    && (forall j :: 0 <= j < |r| && (j < i || j == d || r[j] == RUNTIME_INF) ==> r'[j] == r[j])
    && (forall j :: i <= j < |r| && j != d && r[j] != RUNTIME_INF ==>
          r'[j] == r[j] - Least(r[j], Most(0, want - HeldBefore(r, d, i, j))))
  }

  /** Greedy reclaim empties the queues in order until it has `want`. */
  lemma {:induction false} ReclaimExact(r: seq<int>, want: int, d: nat, i: nat)
    requires NonNegative(r) && d < |r| && i <= |r| && want > 0
    ensures Taken(r, Reclaim(r, want, d, i).0, want, d, i)
    ensures Reclaim(r, want, d, i).1 == Most(0, want - HeldBefore(r, d, i, |r|))
    decreases |r| - i
  {
    hide Taken;
    if i == |r| {
      TakenNone(r, want, d);
    } else if i == d || r[i] == RUNTIME_INF {
      ReclaimExact(r, want, d, i + 1);
      TakenOver(r, r, Reclaim(r, want, d, i).0, want, d, i);
    } else {
      var diff := Least(r[i], want);
      var r1 := r[i := r[i] - diff];
      if want == diff {
        TakenStops(r, want, d, i);
      } else {
        ReclaimExact(r1, want - diff, d, i + 1);
        TakenOver(r, r1, Reclaim(r, want, d, i).0, want, d, i);
        HeldFrame(r, r1, d, i + 1, |r|);
      }
    }
  }

  lemma TakenNone(r: seq<int>, want: int, d: nat)
    requires NonNegative(r) && d < |r|
    ensures Taken(r, r, want, d, |r|)
  {
  }

  lemma TakenOver(r: seq<int>, r1: seq<int>, r': seq<int>, want: int, d: nat, i: nat)
    requires NonNegative(r) && NonNegative(r1) && |r| == |r1| == |r'| && d < |r| && i < |r| && want > 0
    requires var x := if i == d || r[i] == RUNTIME_INF then 0 else r[i];
             && x < want && r1 == (if i == d || r[i] == RUNTIME_INF then r else r[i := 0])
             && Taken(r1, r', want - x, d, i + 1)
    ensures Taken(r, r', want, d, i)
  {
    forall j | i <= j < |r| && j != d && r[j] != RUNTIME_INF
      ensures r'[j] == r[j] - Least(r[j], Most(0, want - HeldBefore(r, d, i, j)))
    {
      if j > i {
        HeldFrame(r, r1, d, i + 1, j);
      }
    }
  }

  lemma TakenStops(r: seq<int>, want: int, d: nat, i: nat)
    requires NonNegative(r) && d < |r| && i < |r| && i != d && r[i] != RUNTIME_INF && 0 < want <= r[i]
    ensures Taken(r, r[i := r[i] - want], want, d, i) && HeldBefore(r, d, i, |r|) >= want
  {
    forall j | i < j <= |r| ensures HeldBefore(r, d, i, j) >= want {
      assert HeldBefore(r, d, i + 1, j) >= 0;
    }
  }

  /** What a queue holds too much goes to the first other enabled queue. */
  lemma {:induction false} ReclaimBack(r: seq<int>, want: int, d: nat, i: nat, f: nat)
    requires d < |r| && i <= f <= |r| && want < 0
    requires forall j :: i <= j < f ==> j == d || r[j] == RUNTIME_INF
    requires f < |r| ==> f != d && r[f] != RUNTIME_INF
    ensures Reclaim(r, want, d, i) == if f == |r| then (r, want) else (r[f := r[f] - want], 0)
    decreases |r| - i
  {
    if i < f {
      ReclaimBack(r, want, d, i + 1, f);
    }
  }

  lemma {:induction false} RestIsTotal(r: seq<int>, d: nat, i: nat)
    requires i <= |r| && d < |r|
    ensures Rest(r, d, i) == Total(r[i..]) - if d < i || r[d] == RUNTIME_INF then 0 else r[d]
    decreases |r| - i
  {
    if i < |r| {
      assert r[i..][1..] == r[i + 1..];
      RestIsTotal(r, d, i + 1);
    }
  }

  lemma {:induction false} AnotherEnabled(r: seq<int>)
    requires Count(r) > 0
    ensures exists j :: 0 <= j < |r| && r[j] != RUNTIME_INF
  {
    if r[0] == RUNTIME_INF {
      AnotherEnabled(r[1..]);
      var j :| 0 <= j < |r[1..]| && r[1..][j] != RUNTIME_INF;
      assert r[j + 1] != RUNTIME_INF;
    }
  }

  /** `__disable_runtime` on the queue of CPU `d`. */
  ghost function Disable(r: seq<int>, group: int, d: nat): seq<int>
    requires d < |r|
  {
    if r[d] == RUNTIME_INF || r[d] == group then r[d := RUNTIME_INF]
    else Reclaim(r, group - r[d], d, 0).0[d := RUNTIME_INF]
  }

  /** A queue holding other than its quota either finds enough with the others or finds another. */
  lemma CanReclaim(r: seq<int>, group: int, d: nat)
    requires Conserved(r, group) && d < |r| && r[d] != RUNTIME_INF && r[d] != group && 0 <= group
    ensures group - r[d] > 0 ==> group - r[d] <= Rest(r, d, 0)
    ensures group - r[d] < 0 ==> OtherFrom(r, d, 0)
  {
    assert r[0..] == r;
    RestIsTotal(r, d, 0);
    UpdateTotal(r, d, RUNTIME_INF);
    if Count(r) == 1 {
      TotalOfOne(r, d);
    } else {
      AnotherEnabled(r[d := RUNTIME_INF]);
      var j :| 0 <= j < |r| && r[d := RUNTIME_INF][j] != RUNTIME_INF;
      assert r[j] != RUNTIME_INF && j != d;
      Scale(2, Count(r), group);
    }
  }

  lemma TotalOfOne(r: seq<int>, d: nat)
    requires d < |r| && r[d] != RUNTIME_INF && Count(r) == 1
    ensures Total(r) == r[d]
  {
    UpdateTotal(r, d, RUNTIME_INF);
    TotalOfNone(r[d := RUNTIME_INF]);
  }

  lemma {:induction false} TotalOfNone(r: seq<int>)
    requires Count(r) == 0
    ensures Total(r) == 0
  {
    if r != [] {
      TotalOfNone(r[1..]);
    }
  }

  /** `BUG_ON(want)` fires when the queue of CPU `d` is disabled. */
  ghost predicate Bug(r: seq<int>, group: int, d: nat)
    requires d < |r|
  {
    r[d] != RUNTIME_INF && r[d] != group && Reclaim(r, group - r[d], d, 0).1 != 0
  }

  /** `BUG_ON(want)` is unreachable, and disabling takes exactly one quota out of the domain. */
  lemma DisableConserves(r: seq<int>, group: int, period: int, d: nat)
    requires Conserved(r, group) && Fits(|r|, group, period) && d < |r|
    ensures !Bug(r, group, d)
    ensures Conserved(Disable(r, group, d), group)
    ensures SameEnabled(r[d := RUNTIME_INF], Disable(r, group, d))
  {
    var r' := Disable(r, group, d);
    UpdateTotal(r, d, RUNTIME_INF);
    if r[d] == RUNTIME_INF {
    } else if r[d] == group {
      assert (Count(r) - 1) * group == Count(r) * group - group;
    } else {
      ConservedSized(r, group, period);
      AtMostTotal(r, d);
      CanReclaim(r, group, d);
      ReclaimAll(r, group - r[d], d, 0);
      var m := Reclaim(r, group - r[d], d, 0).0;
      UpdateTotal(m, d, RUNTIME_INF);
      CountSame(r, m);
      assert (Count(r) - 1) * group == Count(r) * group - group;
    }
  }

  /** `__enable_runtime` keeps the sum exactly for a queue that is disabled or holds its quota: it resets an
      enabled queue too, whatever it has lent or borrowed. */
  lemma EnableConserves(r: seq<int>, group: int, c: nat)
    requires Conserved(r, group) && c < |r| && 0 <= group && group != RUNTIME_INF
    ensures Conserved(r[c := group], group) <==> r[c] == RUNTIME_INF || r[c] == group
  {
    UpdateTotal(r, c, group);
    assert (Count(r) + 1) * group == Count(r) * group + group;
  }

  // ----- Runs

  /** `online` and being enabled are two things: queues start enabled, whether online or not. `running`
      is `scheduler_running`. */
  datatype Domain = Domain(runtime: seq<int>, time: seq<int>, online: seq<bool>, running: bool)

  datatype Op =
    | Start                       // scheduler_running = 1
    | Balance(b: nat)             // balance_runtime
    | Offline(c: nat)             // set_rq_offline
    | Online(c: nat)              // set_rq_online
    | Account(c: nat, time: nat)  // update_curr_rt or the period timer sets rt_time

  ghost predicate Shaped(m: Domain) {
    && |m.runtime| == |m.time| == |m.online| && NonNegative(m.time)
    && (forall c :: 0 <= c < |m.time| ==> m.time[c] < TWO63)
  }

  ghost predicate Inv(m: Domain, group: int, period: int) {
    Shaped(m) && Fits(|m.runtime|, group, period) && Conserved(m.runtime, group)
  }

  ghost function Step(m: Domain, group: int, period: int, op: Op): (m': Domain)
    requires Shaped(m)
    ensures Shaped(m') && |m'.runtime| == |m.runtime|
  {
    match op
    case Start => m.(running := true)
    case Balance(b) =>
      if b < |m.time| && m.time[b] > m.runtime[b]
      then m.(runtime := Borrow(m.runtime, m.time, period, b, 0)) else m
    case Offline(c) =>
      if !(c < |m.online| && m.online[c]) then m
      else m.(runtime := if m.running then Disable(m.runtime, group, c) else m.runtime, online := m.online[c := false])
    case Online(c) =>
      if !(c < |m.online| && !m.online[c]) then m
      else if m.running
      then m.(runtime := m.runtime[c := group], time := m.time[c := 0], online := m.online[c := true])
      else m.(online := m.online[c := true])
    case Account(c, t) =>
      if c < |m.time| && t < TWO63 then m.(time := m.time[c := t]) else m
  }

  /** The step resets no queue that has lent or borrowed. */
  ghost predicate Settled(m: Domain, group: int, op: Op)
    requires Shaped(m)
  {
    op.Online? && op.c < |m.online| && !m.online[op.c] && m.running ==>
      m.runtime[op.c] == RUNTIME_INF || m.runtime[op.c] == group
  }

  /** The step runs into `BUG_ON(want)`. */
  ghost predicate Bugs(m: Domain, group: int, op: Op)
    requires Shaped(m)
  {
    op.Offline? && op.c < |m.online| && m.online[op.c] && m.running && Bug(m.runtime, group, op.c)
  }

  lemma GroupIsFinite(n: nat, group: int, period: int)
    requires Fits(n, group, period) && n > 0
    ensures 0 <= group < TWO63
  {
    Scale(1, n, group);
  }

  /** A step keeps the sum exactly when it is settled, and from a conserved state none runs into the bug. */
  lemma StepKeeps(m: Domain, group: int, period: int, op: Op)
    requires Inv(m, group, period)
    ensures Inv(Step(m, group, period, op), group, period) <==> Settled(m, group, op)
    ensures !Bugs(m, group, op)
  {
    hide Conserved; hide Fits; hide Borrow; hide Disable; hide Bug;
    match op
    case Start =>
    case Balance(b) =>
      if b < |m.time| && m.time[b] > m.runtime[b] {
        BalanceKeeps(m, group, period, b);
      }
    case Offline(c) =>
      if c < |m.online| && m.online[c] {
        DisableConserves(m.runtime, group, period, c);
      }
    case Online(c) =>
      if c < |m.online| && !m.online[c] {
        GroupIsFinite(|m.runtime|, group, period);
        EnableConserves(m.runtime, group, c);
      }
    case Account(_, _) =>
  }

  lemma BalanceKeeps(m: Domain, group: int, period: int, b: nat)
    requires Inv(m, group, period) && b < |m.time| && m.time[b] > m.runtime[b]
    ensures var r := Borrow(m.runtime, m.time, period, b, 0);
            Conserved(r, group) && SameEnabled(m.runtime, r)
  {
    hide Borrow; hide Total; hide Count;
    ConservedSized(m.runtime, group, period);
    BorrowBalances(m.runtime, m.time, period, b, 0);
  }

  /** The state after `ops`. */
  ghost function Run(m: Domain, group: int, period: int, ops: seq<Op>): (m': Domain)
    requires Shaped(m)
    ensures Shaped(m') && |m'.runtime| == |m.runtime|
    decreases |ops|
  {
    if ops == [] then m else Step(Run(m, group, period, ops[..|ops| - 1]), group, period, ops[|ops| - 1])
  }

  /** All queues enabled with the group's runtime, as `sched_init` and the creation of a group leave them,
      whichever CPUs are online. */
  ghost function Boot(n: nat, group: int, online: seq<bool>, running: bool): (m: Domain)
    requires |online| == n
    ensures Shaped(m) && |m.runtime| == n
  {
    Domain(seq(n, _ => group), seq(n, _ => 0), online, running)
  }

  lemma {:induction false} BootTotal(n: nat, group: int)
    requires group != RUNTIME_INF
    ensures Total(seq(n, _ => group)) == n * group && Count(seq(n, _ => group)) == n
  {
    if n > 0 {
      assert seq(n, _ => group)[1..] == seq(n - 1, _ => group);
      BootTotal(n - 1, group);
      assert (n - 1) * group + group == n * group;
    }
  }

  lemma BootInv(n: nat, group: int, period: int, online: seq<bool>, running: bool)
    requires Fits(n, group, period) && |online| == n
    ensures Inv(Boot(n, group, online, running), group, period)
  {
    if n > 0 {
      GroupIsFinite(n, group, period);
      BootTotal(n, group);
    }
  }

  ghost predicate AllSettled(m: Domain, group: int, period: int, ops: seq<Op>)
    requires Shaped(m)
  {
    forall i :: 0 <= i < |ops| ==> Settled(Run(m, group, period, ops[..i]), group, ops[i])
  }

  ghost predicate AllConserved(m: Domain, group: int, period: int, ops: seq<Op>)
    requires Shaped(m)
  {
    forall i :: 0 <= i <= |ops| ==> Conserved(Run(m, group, period, ops[..i]).runtime, group)
  }

  lemma PrefixRun(m: Domain, group: int, period: int, ops: seq<Op>, i: nat)
    requires Shaped(m) && i < |ops|
    ensures Run(m, group, period, ops[..i + 1]) == Step(Run(m, group, period, ops[..i]), group, period, ops[i])
  {
    assert ops[..i + 1][..i] == ops[..i];
  }

  lemma {:induction false} SettledRun(m: Domain, group: int, period: int, ops: seq<Op>, i: nat)
    requires Inv(m, group, period) && i <= |ops|
    requires forall j :: 0 <= j < i ==> Settled(Run(m, group, period, ops[..j]), group, ops[j])
    ensures Inv(Run(m, group, period, ops[..i]), group, period)
  {
    if i > 0 {
      hide Inv; hide Settled; hide Step;
      SettledRun(m, group, period, ops, i - 1);
      PrefixRun(m, group, period, ops, i - 1);
      StepKeeps(Run(m, group, period, ops[..i - 1]), group, period, ops[i - 1]);
    }
  }

  /** Over any run of borrowing, hotplug and accounting, the enabled queues hold exactly their quota in sum
      at every point if and only if no step brings a CPU online whose enabled queue has lent or borrowed.
      Then `BUG_ON(want)` is never reached, whichever queue is disabled next. */
  lemma RunsConserve(m: Domain, group: int, period: int, ops: seq<Op>)
    requires Inv(m, group, period)
    ensures AllConserved(m, group, period, ops) <==> AllSettled(m, group, period, ops)
    ensures AllSettled(m, group, period, ops) ==>
              && (forall i :: 0 <= i < |ops| ==> !Bugs(Run(m, group, period, ops[..i]), group, ops[i]))
              && forall d :: 0 <= d < |m.runtime| ==> !Bug(Run(m, group, period, ops).runtime, group, d)
  {
    hide Settled; hide Step; hide Run; hide Bugs; hide Bug; hide Conserved;
    if AllSettled(m, group, period, ops) {
      forall i | 0 <= i <= |ops|
        ensures Conserved(Run(m, group, period, ops[..i]).runtime, group)
        ensures i < |ops| ==> !Bugs(Run(m, group, period, ops[..i]), group, ops[i])
      {
        SettledRun(m, group, period, ops, i);
        if i < |ops| {
          StepKeeps(Run(m, group, period, ops[..i]), group, period, ops[i]);
        }
      }
      SettledRun(m, group, period, ops, |ops|);
      assert ops[..|ops|] == ops;
      forall d | 0 <= d < |m.runtime| ensures !Bug(Run(m, group, period, ops).runtime, group, d) {
        DisableConserves(Run(m, group, period, ops).runtime, group, period, d);
      }
    }
    if AllConserved(m, group, period, ops) {
      forall i | 0 <= i < |ops| ensures Settled(Run(m, group, period, ops[..i]), group, ops[i]) {
        var x := Run(m, group, period, ops[..i]);
        assert Conserved(Run(m, group, period, ops[..i + 1]).runtime, group);
        PrefixRun(m, group, period, ops, i);
        StepKeeps(x, group, period, ops[i]);
      }
    }
  }

  // ----- When every step is settled

  /** The scheduler runs and exactly the online queues are enabled. */
  ghost predicate Tied(m: Domain)
    requires Shaped(m)
  {
    m.running && forall c :: 0 <= c < |m.online| ==> (m.online[c] <==> m.runtime[c] != RUNTIME_INF)
  }

  lemma TiedStays(m: Domain, group: int, period: int, op: Op)
    requires Inv(m, group, period) && Tied(m)
    ensures Settled(m, group, op) && Tied(Step(m, group, period, op)) && Inv(Step(m, group, period, op), group, period)
  {
    StepKeeps(m, group, period, op);
    hide Conserved; hide Fits; hide Borrow; hide Disable;
    match op
    case Balance(b) =>
      if b < |m.time| && m.time[b] > m.runtime[b] {
        BalanceKeeps(m, group, period, b);
      }
    case Offline(c) =>
      if c < |m.online| && m.online[c] {
        DisableConserves(m.runtime, group, period, c);
      }
    case Online(c) =>
      if c < |m.online| && !m.online[c] {
        GroupIsFinite(|m.runtime|, group, period);
      }
    case _ =>
  }

  /** Nothing has been lent: every queue is disabled or holds its quota. */
  ghost predicate Untouched(m: Domain, group: int) {
    forall c :: 0 <= c < |m.runtime| ==> m.runtime[c] == RUNTIME_INF || m.runtime[c] == group
  }

  lemma UntouchedStays(m: Domain, group: int, period: int, op: Op)
    requires Shaped(m) && Untouched(m, group) && !op.Balance?
    ensures Settled(m, group, op) && Untouched(Step(m, group, period, op), group)
  {
    hide Reclaim;
  }

  lemma {:induction false} QuietRun(m: Domain, group: int, period: int, ops: seq<Op>, i: nat)
    requires Inv(m, group, period) && Untouched(m, group) && i <= |ops|
    requires forall j :: 0 <= j < i ==> !ops[j].Balance?
    ensures Untouched(Run(m, group, period, ops[..i]), group) && Inv(Run(m, group, period, ops[..i]), group, period)
  {
    if i > 0 {
      hide Step; hide Settled;
      QuietRun(m, group, period, ops, i - 1);
      PrefixRun(m, group, period, ops, i - 1);
      UntouchedStays(Run(m, group, period, ops[..i - 1]), group, period, ops[i - 1]);
      StepKeeps(Run(m, group, period, ops[..i - 1]), group, period, ops[i - 1]);
    }
  }

  lemma {:induction false} TiedRun(m: Domain, group: int, period: int, ops: seq<Op>, k: nat, i: nat)
    requires Shaped(m) && k <= i <= |ops|
    requires var x := Run(m, group, period, ops[..k]); Inv(x, group, period) && Tied(x)
    ensures var x := Run(m, group, period, ops[..i]); Inv(x, group, period) && Tied(x)
  {
    if i > k {
      hide Step; hide Inv; hide Tied;
      TiedRun(m, group, period, ops, k, i - 1);
      PrefixRun(m, group, period, ops, i - 1);
      TiedStays(Run(m, group, period, ops[..i - 1]), group, period, ops[i - 1]);
    }
  }

  /** If no queue borrows before the first `k` steps have brought the CPUs up, so that just the online queues
      are enabled, then every step is settled, whatever happens afterwards. */
  lemma CleanBoot(n: nat, group: int, period: int, online: seq<bool>, ops: seq<Op>, k: nat)
    requires Fits(n, group, period) && |online| == n && k <= |ops|
    requires forall j :: 0 <= j < k ==> !ops[j].Balance?
    requires Tied(Run(Boot(n, group, online, false), group, period, ops[..k]))
    ensures AllSettled(Boot(n, group, online, false), group, period, ops)
  {
    hide Step; hide Settled; hide Run;
    var m := Boot(n, group, online, false);
    BootInv(n, group, period, online, false);
    forall i | 0 <= i < |ops| ensures Settled(Run(m, group, period, ops[..i]), group, ops[i]) {
      if i < k {
        QuietRun(m, group, period, ops, i);
        UntouchedStays(Run(m, group, period, ops[..i]), group, period, ops[i]);
      } else {
        QuietRun(m, group, period, ops, k);
        TiedRun(m, group, period, ops, k, i);
        TiedStays(Run(m, group, period, ops[..i]), group, period, ops[i]);
      }
    }
  }

  // ----- The routines, with the machine's arithmetic

  /** One lender's turn computed on 64-bit words gives the exact loan. */
  method LendWords(lender: int, used: int, borrower: int, weight: int, period: int) returns (l: int, b: int)
    requires 0 <= lender < TWO63 && 0 <= used < TWO63 && 0 <= borrower && lender + borrower < TWO63
    requires 0 < weight && 0 < period < TWO63
    ensures lender - used <= 0 ==> l == lender && b == borrower
    ensures lender - used > 0 ==>
              var diff := Loan(lender - used, weight, borrower, period);
              l == lender - diff && b == borrower + diff
  {
    hide U64; hide S64;
    l, b := lender, borrower;
    WordExact(lender - used);
    var diff := S64(lender - used);
    if diff > 0 {
      ShareAtMost(diff, weight);
      WordExact(diff / weight);
      diff := S64(U64(diff) / weight);
      WordExact(borrower + diff);
      if U64(borrower + diff) > period {
        WordExact(period - borrower);
        diff := S64(period - borrower);
      }
      WordExact(lender - diff);
      WordExact(borrower + diff);
      l := U64(lender - diff);
      b := U64(borrower + diff);
    }
  }

  class RootDomain {
    const group: int
    const period: int
    const runtime: array<int>
    const time: array<int>
    const online: array<bool>
    var running: bool

    ghost function View(): Domain
      reads this, runtime, time, online
    {
      Domain(runtime[..], time[..], online[..], running)
    }

    ghost predicate Valid()
      reads this, runtime, time, online
    {
      runtime != time && Shaped(View()) && 0 <= group < TWO63
    }

    /** Every queue enabled and every CPU offline, as `sched_init` sets them. */
    constructor (n: nat, group: int, period: int)
      requires 0 <= group < TWO63
      ensures Valid() && View() == Boot(n, group, seq(n, _ => false), false) && this.group == group &&
              this.period == period
      ensures fresh(runtime) && fresh(time) && fresh(online)
    {
      this.group, this.period, running := group, period, false;
      runtime := new int[n](_ => group);
      time := new int[n](_ => 0);
      online := new bool[n](_ => false);
      new;
      assert View() == Boot(n, group, seq(n, _ => false), false);
    }

    method Start()
      requires Valid()
      modifies this`running
      ensures Valid() && View() == Step(old(View()), group, period, Op.Start)
    {
      running := true;
    }

    /** `do_balance_runtime` for the queue of CPU `b`. */
    method DoBalanceRuntime(b: nat)
      requires Valid() && Sized(runtime[..], period) && b < runtime.Length && runtime[b] != RUNTIME_INF
      modifies runtime
      ensures runtime[..] == Borrow(old(runtime[..]), time[..], period, b, 0)
    {
      hide Loan; hide Total; hide Count;
      var n := runtime.Length;
      var i := 0;
      ghost var goal := Borrow(runtime[..], time[..], period, b, 0);
      while i < n
        invariant 0 <= i <= n && time[..] == old(time[..])
        invariant Sized(runtime[..], period) && runtime[b] != RUNTIME_INF
        invariant Borrow(runtime[..], time[..], period, b, i) == goal
      {
        if i != b && runtime[i] != RUNTIME_INF {
          ghost var r := runtime[..];
          PairAtMost(r, i, b);
          var l, bb := LendWords(runtime[i], time[i], runtime[b], n, period);
          if runtime[i] - time[i] > 0 {
            BorrowStep(r, time[..], period, b, i);
            runtime[i] := l;
            runtime[b] := bb;
            assert runtime[..] == r[i := l][b := bb];
            if runtime[b] == period {
              break;
            }
          }
        }
        i := i + 1;
      }
    }

    /** `__disable_runtime` for the queue of CPU `d`; `bug` is its `BUG_ON`. */
    method DisableRuntime(d: nat) returns (bug: bool)
      requires Valid() && Sized(runtime[..], period) && d < runtime.Length
      modifies runtime
      ensures bug <==> Bug(old(runtime[..]), group, d)
      ensures !bug ==> runtime[..] == Disable(old(runtime[..]), group, d)
    {
      hide Total;
      ghost var r0 := runtime[..];
      if runtime[d] != RUNTIME_INF && runtime[d] != group {
        DiffFits(r0, group, period, d);
        var want := S64(group - runtime[d]);
        var n := runtime.Length;
        var i := 0;
        while i < n
          invariant 0 <= i <= n && runtime[d] == r0[d]
          invariant Reclaim(runtime[..], want, d, i) == Reclaim(r0, group - r0[d], d, 0)
          invariant want != 0
        {
          if i != d && runtime[i] != RUNTIME_INF {
            ghost var r := runtime[..];
            var diff := want;
            if want > 0 {
              diff := if runtime[i] < want then runtime[i] else want;
            }
            runtime[i] := runtime[i] - diff;
            want := want - diff;
            assert runtime[..] == r[i := r[i] - diff];
            if want == 0 {
              break;
            }
          }
          i := i + 1;
        }
        if want != 0 {
          return true;
        }
      }
      runtime[d] := RUNTIME_INF;
      return false;
    }

    /** `set_rq_offline`, as far as the runtime of the real-time class goes. */
    method SetOffline(c: nat) returns (bug: bool)
      requires Valid() && Sized(runtime[..], period) && c < online.Length
      modifies runtime, online
      ensures bug <==> Bugs(old(View()), group, Offline(c))
      ensures !bug ==> Valid() && View() == Step(old(View()), group, period, Offline(c))
    {
      hide Disable; hide Bug; hide Total;
      bug := false;
      if online[c] {
        if running {
          bug := DisableRuntime(c);
          if bug {
            return;
          }
        }
        online[c] := false;
      }
    }

    /** `set_rq_online`, with `__enable_runtime`. */
    method SetOnline(c: nat)
      requires Valid() && c < online.Length
      modifies runtime, time, online
      ensures Valid() && View() == Step(old(View()), group, period, Online(c))
      ensures online[c] && (!old(online[c]) && running ==> runtime[c] == group && time[c] == 0)
    {
      if !online[c] {
        online[c] := true;
        if running {
          runtime[c] := group;
          time[c] := 0;
        }
      }
    }

    /** `balance_runtime` with runtime sharing on. */
    method BalanceRuntime(b: nat)
      requires Valid() && Sized(runtime[..], period) && b < runtime.Length
      modifies runtime
      ensures Valid() && View() == Step(old(View()), group, period, Balance(b))
      ensures if time[b] <= old(runtime[b]) then runtime[..] == old(runtime[..])
              else old(runtime[b]) <= period ==> Lent(old(runtime[..]), runtime[..], time[..], period, b, 0)
    {
      hide Borrow; hide Total; hide Lent;
      if time[b] > runtime[b] {
        if runtime[b] <= period {
          BorrowExact(runtime[..], time[..], period, b, 0);
        }
        DoBalanceRuntime(b);
      }
    }
  }

  lemma DiffFits(r: seq<int>, group: int, period: int, d: nat)
    requires Sized(r, period) && d < |r| && r[d] != RUNTIME_INF && 0 <= group < TWO63
    ensures S64(group - r[d]) == group - r[d]
  {
    AtMostTotal(r, d);
    WordExact(group - r[d]);
  }

  // ----- A boot that ends in the bug

  /** CPU 0 is up and over its runtime before CPU 1 comes up: it borrows 50 ms from the queue of CPU 1,
      which coming online gets them back a second time. When both go down, the second cannot return
      what it holds too much. */
  ghost function Booting(): seq<Op> {
    [Start, Online(0), Account(0, 1_000_000_000), Balance(0), Online(1), Offline(0), Offline(1)]
  }

  ghost function TwoCpus(): Domain {
    Boot(2, 950_000_000, [false, false], false)
  }

  /** The states of that run. */
  ghost function BootState(k: nat): Domain {
    var g, p := 950_000_000, 1_000_000_000;
    if k <= 1 then Domain([g, g], [0, 0], [false, false], k == 1)
    else if k == 2 then Domain([g, g], [0, 0], [true, false], true)
    else if k == 3 then Domain([g, g], [p, 0], [true, false], true)
    else if k == 4 then Domain([p, 900_000_000], [p, 0], [true, false], true)
    else if k == 5 then Domain([p, g], [p, 0], [true, true], true)
    else Domain([RUNTIME_INF, p], [p, 0], [false, true], true)
  }

  lemma BootStep(k: nat)
    requires k < 6
    ensures Shaped(BootState(k)) && Step(BootState(k), 950_000_000, 1_000_000_000, Booting()[k]) == BootState(k + 1)
  {
    if k == 3 {
      var r, t := [950_000_000, 950_000_000], [1_000_000_000, 0];
      assert Borrow(r, t, 1_000_000_000, 0, 0) == Borrow(r, t, 1_000_000_000, 0, 1);
      assert Loan(950_000_000, 2, 950_000_000, 1_000_000_000) == 50_000_000;
      assert r[1 := 900_000_000][0 := 1_000_000_000] == [1_000_000_000, 900_000_000];
    } else if k == 5 {
      var r := [1_000_000_000, 950_000_000];
      assert Reclaim(r, -50_000_000, 0, 0) == Reclaim(r, -50_000_000, 0, 1);
      assert Disable(r, 950_000_000, 0) == [RUNTIME_INF, 1_000_000_000];
    }
  }

  lemma {:induction false} BootRuns(k: nat)
    requires k <= 6
    ensures Run(TwoCpus(), 950_000_000, 1_000_000_000, Booting()[..k]) == BootState(k)
  {
    if k == 0 {
      assert seq(2, _ => 950_000_000) == [950_000_000, 950_000_000] && seq(2, _ => 0) == [0, 0];
    } else {
      hide Step; hide Borrow; hide Disable;
      BootRuns(k - 1);
      PrefixRun(TwoCpus(), 950_000_000, 1_000_000_000, Booting(), k - 1);
      BootStep(k - 1);
    }
  }

  /** The conserved state that `sched_init` leaves, one unsettled step, and `BUG_ON(want)`. */
  lemma BootCanBug()
    ensures Inv(TwoCpus(), 950_000_000, 1_000_000_000)
    ensures !Settled(Run(TwoCpus(), 950_000_000, 1_000_000_000, Booting()[..4]), 950_000_000, Booting()[4])
    ensures !Conserved(Run(TwoCpus(), 950_000_000, 1_000_000_000, Booting()[..5]).runtime, 950_000_000)
    ensures Bugs(Run(TwoCpus(), 950_000_000, 1_000_000_000, Booting()[..6]), 950_000_000, Booting()[6])
  {
    hide Run; hide Borrow;
    BootInv(2, 950_000_000, 1_000_000_000, [false, false], false);
    BootRuns(4);
    BootRuns(5);
    BootRuns(6);
    BrokenSum();
    assert Reclaim([RUNTIME_INF, 1_000_000_000], -50_000_000, 1, 0).1 == -50_000_000 by {
      assert Reclaim([RUNTIME_INF, 1_000_000_000], -50_000_000, 1, 1).1 == -50_000_000;
    }
  }

  lemma BrokenSum()
    ensures !Conserved([1_000_000_000, 950_000_000], 950_000_000)
  {
    var r := [1_000_000_000, 950_000_000];
    assert r[1..] == [950_000_000] && r[1..][1..] == [];
    assert Total(r) == 1_950_000_000 && Count(r) == 2;
  }
}
