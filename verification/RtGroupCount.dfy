/** What the counts of a tree of real-time queues mean for tasks: `rt_nr_running` of a queue is the number
    of tasks that are queued below it through queued groups only. */
module RtGroupCount {
  import opened Lists
  import opened RtGroupQueues

  /** The way up from `x` reaches queue `q` through queued groups only. */
  ghost predicate Reaches(s: State, x: Entity, q: nat)
    requires WellFormed(s) && Known(s, x)
    decreases Owner(s, x)
  {
    var o := Owner(s, x);
    o == q || (o != ROOT && Group(o) in s.onRq && Reaches(s, Group(o), q))
  }

  /** The entity on that way that `q` itself queues. */
  ghost function Entry(s: State, x: Entity, q: nat): (e: Entity)
    requires WellFormed(s) && Known(s, x) && Reaches(s, x, q)
    ensures Known(s, e) && Owner(s, e) == q && (x in s.onRq ==> e in s.onRq) && (e == x || e.Group?)
    decreases Owner(s, x)
  {
    if Owner(s, x) == q then x else Entry(s, Group(Owner(s, x)), q)
  }

  ghost predicate Counts(s: State, t: nat, q: nat)
    requires WellFormed(s)
  {
    t in s.task && Task(t) in s.onRq && Reaches(s, Task(t), q)
  }

  /** The tasks that `rt_nr_running` and `rr_nr_running` are about. */
  predicate OfKind(s: State, t: nat, rr: bool) {
    t in s.task && (rr ==> s.task[t].rr)
  }

  function KindOf(rr: bool): Stat {
    if rr then RoundRobin else Running
  }

  /** The tasks that count for queue `q`, all of them or the round-robin ones. */
  ghost function Tasks(s: State, q: nat, rr: bool): set<nat>
    requires WellFormed(s)
  {
    set t | t in s.task && Counts(s, t, q) && OfKind(s, t, rr)
  }

  /** Those that enter it through an entity of `l`. */
  ghost function Through(s: State, q: nat, l: seq<Entity>, rr: bool): set<nat>
    requires WellFormed(s)
  {
    set t | t in s.task && Counts(s, t, q) && OfKind(s, t, rr) && Entry(s, Task(t), q) in l
  }

  /** What enters `q` through group `g` is what counts for the queue of `g`. */
  lemma {:induction false} ThroughGroup(s: State, x: Entity, g: nat)
    requires WellFormed(s) && Known(s, x) && g in s.rt && g != ROOT && Group(g) in s.onRq && x != Group(g)
    ensures var q := s.tree.parent[g];
            Reaches(s, x, g) <==> Reaches(s, x, q) && Entry(s, x, q) == Group(g)
    decreases Owner(s, x)
  {
    var o, q := Owner(s, x), s.tree.parent[g];
    if o == g {
      assert Reaches(s, Group(g), q);
    } else if o != ROOT && Group(o) in s.onRq {
      ThroughGroup(s, Group(o), g);
      if o == q {
        NotBelow(s, Group(o), g);
        assert Entry(s, x, q) == x;
      }
    }
  }

  /** The way up only leads to smaller identifiers. */
  lemma {:induction false} NotBelow(s: State, x: Entity, q: nat)
    requires WellFormed(s) && Known(s, x)
    ensures Reaches(s, x, q) ==> q <= Owner(s, x)
    decreases Owner(s, x)
  {
    if Owner(s, x) != ROOT {
      NotBelow(s, Group(Owner(s, x)), q);
    }
  }

  /** A queued child of `q`, whose own count is right if it is a group. */
  ghost predicate Child(s: State, q: nat, e: Entity, rr: bool)
    requires WellFormed(s)
  {
    && Known(s, e) && e in s.onRq && Owner(s, e) == q
    && (e.Group? ==> Counter(s.rt[e.id], KindOf(rr)) == |Tasks(s, e.id, rr)|)
  }

  lemma ThroughOne(s: State, q: nat, e: Entity, rr: bool)
    requires WellFormed(s) && Child(s, q, e, rr)
    ensures |Through(s, q, [e], rr)| == Load(s, e, KindOf(rr))
  {
    match e
    case Task(u) =>
      forall t | t in s.task && Counts(s, t, q) ensures Entry(s, Task(t), q) == e <==> t == u {
      }
      assert Reaches(s, e, q);
      assert Through(s, q, [e], rr) == if OfKind(s, u, rr) then {u} else {};
    case Group(g) =>
      forall t | t in s.task ensures Counts(s, t, q) && Entry(s, Task(t), q) == e <==> Counts(s, t, g) {
        ThroughGroup(s, Task(t), g);
      }
      assert Through(s, q, [e], rr) == Tasks(s, g, rr);
  }

  lemma ThroughSplit(s: State, q: nat, l: seq<Entity>, rr: bool)
    requires WellFormed(s) && l != [] && Distinct(l)
    ensures |Through(s, q, l, rr)| == |Through(s, q, [l[0]], rr)| + |Through(s, q, l[1..], rr)|
  {
    var a, b := Through(s, q, [l[0]], rr), Through(s, q, l[1..], rr);
    assert l[0] !in l[1..];
    assert Through(s, q, l, rr) == a + b && a !! b;
  }

  lemma {:induction false} ThroughList(s: State, q: nat, l: seq<Entity>, rr: bool)
    requires WellFormed(s) && Distinct(l) && forall e :: e in l ==> Child(s, q, e, rr)
    ensures |Through(s, q, l, rr)| == Sum(s, l, KindOf(rr))
  {
    if l == [] {
      assert Through(s, q, l, rr) == {};
    } else {
      hide Child; hide Through;
      ThroughOne(s, q, l[0], rr);
      ThroughList(s, q, l[1..], rr);
      ThroughSplit(s, q, l, rr);
    }
  }

  /** The tasks that enter `q` through the lists from `k` on. */
  ghost function ThroughFrom(s: State, q: nat, ls: seq<seq<Entity>>, rr: bool): set<nat>
    requires WellFormed(s)
  {
    set t | t in s.task && Counts(s, t, q) && OfKind(s, t, rr) && OnSome(ls, Entry(s, Task(t), q))
  }

  ghost predicate OnSome(ls: seq<seq<Entity>>, e: Entity) {
    exists i :: 0 <= i < |ls| && e in ls[i]
  }

  ghost predicate Apart(ls: seq<seq<Entity>>) {
    forall i, j, e :: 0 <= i < j < |ls| && e in ls[i] ==> e !in ls[j]
  }

  lemma OnSomeSplit(ls: seq<seq<Entity>>, e: Entity)
    requires ls != [] && Apart(ls)
    ensures OnSome(ls, e) <==> e in ls[0] || OnSome(ls[1..], e)
    ensures !(e in ls[0] && OnSome(ls[1..], e))
  {
    if OnSome(ls[1..], e) {
      var i :| 0 <= i < |ls[1..]| && e in ls[1..][i];
      assert e in ls[i + 1];
    }
    if OnSome(ls, e) {
      var i :| 0 <= i < |ls| && e in ls[i];
      if i > 0 {
        assert e in ls[1..][i - 1];
      }
    }
  }

  lemma InOnePart(s: State, q: nat, ls: seq<seq<Entity>>, rr: bool, t: nat)
    requires WellFormed(s) && ls != [] && Apart(ls)
    ensures t in ThroughFrom(s, q, ls, rr) <==> t in Through(s, q, ls[0], rr) || t in ThroughFrom(s, q, ls[1..], rr)
    ensures !(t in Through(s, q, ls[0], rr) && t in ThroughFrom(s, q, ls[1..], rr))
  {
    if t in s.task && Counts(s, t, q) {
      OnSomeSplit(ls, Entry(s, Task(t), q));
    }
    hide OnSome; hide Apart; hide Entry;
  }

  lemma ThroughFromSplit(s: State, q: nat, ls: seq<seq<Entity>>, rr: bool)
    requires WellFormed(s) && ls != [] && Apart(ls)
    ensures |ThroughFrom(s, q, ls, rr)| == |Through(s, q, ls[0], rr)| + |ThroughFrom(s, q, ls[1..], rr)|
  {
    hide ThroughFrom; hide Through; hide Apart; hide WellFormed;
    var a, b := Through(s, q, ls[0], rr), ThroughFrom(s, q, ls[1..], rr);
    forall t ensures t in ThroughFrom(s, q, ls, rr) <==> t in a + b {
      InOnePart(s, q, ls, rr, t);
    }
    forall t ensures !(t in a && t in b) {
      InOnePart(s, q, ls, rr, t);
    }
    assert ThroughFrom(s, q, ls, rr) == a + b && a !! b;
  }

  lemma {:induction false} ThroughLists(s: State, q: nat, ls: seq<seq<Entity>>, rr: bool)
    requires WellFormed(s) && Apart(ls)
    requires forall i :: 0 <= i < |ls| ==> Distinct(ls[i]) && forall e :: e in ls[i] ==> Child(s, q, e, rr)
    ensures |ThroughFrom(s, q, ls, rr)| == SumLists(s, ls, KindOf(rr))
  {
    if ls == [] {
      assert ThroughFrom(s, q, ls, rr) == {};
    } else {
      hide Child; hide Through; hide ThroughFrom; hide Sum;
      ThroughList(s, q, ls[0], rr);
      ThroughLists(s, q, ls[1..], rr);
      ThroughFromSplit(s, q, ls, rr);
    }
  }

  ghost function After(s: State, q: nat): set<nat> {
    set g | g in s.rt && g > q
  }

  /** `rt_nr_running` of any queue is the number of tasks queued below it through queued groups, and
      `rr_nr_running` that of the round-robin ones among them. */
  lemma {:induction false} CountIsTasks(s: State, q: nat, rr: bool)
    requires Consistent(s) && q in s.rt
    ensures (if rr then s.rt[q].rr else s.rt[q].nr) == |Tasks(s, q, rr)|
    decreases |After(s, q)|
  {
    forall g | g in s.rt && g > q ensures Counter(s.rt[g], KindOf(rr)) == |Tasks(s, g, rr)| {
      assert After(s, g) < After(s, q) by { assert g in After(s, q); }
      Smaller(After(s, g), After(s, q));
      CountIsTasks(s, g, rr);
    }
    var ls := s.rt[q].list;
    ListsApart(s, q, rr);
    hide Tasks;
    ThroughLists(s, q, ls, rr);
    AllOnLists(s, q, rr);
    assert QueueOk(s, q) && Counter(s.rt[q], KindOf(rr)) == SumLists(s, ls, KindOf(rr));
  }

  lemma Smaller(a: set<nat>, b: set<nat>)
    requires a < b
    ensures |a| < |b|
  {
    var c := b - a;
    assert b == a + c && a !! c && c != {};
  }

  lemma ListsApart(s: State, q: nat, rr: bool)
    requires Consistent(s) && q in s.rt
    requires forall g :: g in s.rt && g > q ==> Counter(s.rt[g], KindOf(rr)) == |Tasks(s, g, rr)|
    ensures var ls := s.rt[q].list;
            && Apart(ls)
            && forall i :: 0 <= i < |ls| ==> Distinct(ls[i]) && forall e :: e in ls[i] ==> Child(s, q, e, rr)
  {
    hide SumLists; hide Tasks;
    var ls := s.rt[q].list;
    assert QueueOk(s, q);
    forall i | 0 <= i < |ls| ensures PlacedAt(s, q, i, ls[i]) {
    }
  }

  lemma AllOnLists(s: State, q: nat, rr: bool)
    requires Consistent(s) && q in s.rt
    ensures ThroughFrom(s, q, s.rt[q].list, rr) == Tasks(s, q, rr)
  {
    hide QueueOk;
    var ls := s.rt[q].list;
    forall t | t in s.task && Counts(s, t, q) ensures OnSome(ls, Entry(s, Task(t), q)) {
      var e := Entry(s, Task(t), q);
      assert EntityOk(s, e);
      assert e in ls[Prio(s, e)];
    }
  }

  lemma {:induction false} ReachesRoot(s: State, x: Entity)
    requires WellFormed(s) && Known(s, x)
    ensures Reaches(s, x, ROOT) <==> Above(s.tree, Owner(s, x)) <= s.onRq
    decreases Owner(s, x)
  {
    var o := Owner(s, x);
    if o != ROOT {
      ReachesRoot(s, Group(o));
    }
  }

  /** The root's `rt_nr_running` is the number of tasks of the whole tree that may run. */
  lemma RootCountsEligible(s: State)
    requires Consistent(s)
    ensures ROOT in s.rt && s.rt[ROOT].nr == |set t | t in s.task && Eligible(s, t)|
  {
    hide QueueOk; hide EntityOk;
    CountIsTasks(s, ROOT, false);
    forall t | t in s.task ensures Counts(s, t, ROOT) <==> Eligible(s, t) {
      ReachesRoot(s, Task(t));
    }
    assert Tasks(s, ROOT, false) == set t | t in s.task && Eligible(s, t);
  }

  // ----- Boosting

  predicate BoostedTask(s: State, t: nat) {
    t in s.task && s.task[t].prio != s.task[t].normalPrio
  }

  /** Some boosted task is queued below `q` through queued groups. */
  ghost predicate BoostedBelow(s: State, q: nat)
    requires WellFormed(s)
  {
    exists t :: t in s.task && Counts(s, t, q) && BoostedTask(s, t)
  }

  /** A boosted task, or a group with one below it. */
  ghost predicate Boosts(s: State, e: Entity)
    requires WellFormed(s)
  {
    match e
    case Task(t) => BoostedTask(s, t)
    case Group(g) => BoostedBelow(s, g)
  }

  /** The boosted ones among the queued children of `q`. */
  ghost function BoostedChildren(s: State, q: nat): set<Entity>
    requires WellFormed(s)
  {
    set e | e in s.onRq && Known(s, e) && Owner(s, e) == q && Boosts(s, e)
  }

  ghost function BoostedIn(s: State, l: seq<Entity>): set<Entity>
    requires WellFormed(s)
  {
    set e | e in l && Boosts(s, e)
  }

  ghost function BoostedOn(s: State, ls: seq<seq<Entity>>): set<Entity>
    requires WellFormed(s)
  {
    if ls == [] then {} else BoostedIn(s, ls[0]) + BoostedOn(s, ls[1..])
  }

  lemma {:induction false} BoostedOnIs(s: State, ls: seq<seq<Entity>>, e: Entity)
    requires WellFormed(s)
    ensures e in BoostedOn(s, ls) <==> OnSome(ls, e) && Boosts(s, e)
  {
    if ls != [] {
      BoostedOnIs(s, ls[1..], e);
      if OnSome(ls[1..], e) {
        var i :| 0 <= i < |ls[1..]| && e in ls[1..][i];
        assert e in ls[i + 1];
      }
      if OnSome(ls, e) {
        var i :| 0 <= i < |ls| && e in ls[i];
        if i > 0 {
          assert e in ls[1..][i - 1];
        }
      }
    }
  }

  /** Each entity weighs what it boosts. */
  ghost predicate BoostIsLoad(s: State, l: seq<Entity>)
    requires WellFormed(s)
  {
    forall e :: e in l ==> Load(s, e, Boosted) == if Boosts(s, e) then 1 else 0
  }

  lemma {:induction false} BoostedList(s: State, l: seq<Entity>)
    requires WellFormed(s) && Distinct(l) && BoostIsLoad(s, l)
    ensures |BoostedIn(s, l)| == Sum(s, l, Boosted)
  {
    if l == [] {
      assert BoostedIn(s, l) == {};
    } else {
      var rest := BoostedIn(s, l[1..]);
      BoostedList(s, l[1..]);
      assert l[0] !in l[1..];
      assert BoostedIn(s, l) == if Boosts(s, l[0]) then {l[0]} + rest else rest;
    }
  }

  lemma {:induction false} BoostedLists(s: State, ls: seq<seq<Entity>>)
    requires WellFormed(s) && Apart(ls)
    requires forall i :: 0 <= i < |ls| ==> Distinct(ls[i]) && BoostIsLoad(s, ls[i])
    ensures |BoostedOn(s, ls)| == SumLists(s, ls, Boosted)
  {
    if ls != [] {
      hide BoostIsLoad; hide Sum;
      BoostedList(s, ls[0]);
      BoostedLists(s, ls[1..]);
      forall e | e in BoostedOn(s, ls[1..]) ensures e !in BoostedIn(s, ls[0]) {
        BoostedOnIs(s, ls[1..], e);
        OnSomeSplit(ls, e);
      }
      assert BoostedIn(s, ls[0]) !! BoostedOn(s, ls[1..]);
    }
  }

  /** `rt_nr_boosted` is the number of boosted children, and not zero exactly when some boosted task is
      queued below. */
  lemma {:induction false} BoostedIsTasks(s: State, q: nat)
    requires Consistent(s) && q in s.rt
    ensures s.rt[q].nrBoosted == |BoostedChildren(s, q)|
    ensures s.rt[q].nrBoosted != 0 <==> BoostedBelow(s, q)
    decreases |After(s, q)|
  {
    hide QueueOk; hide EntityOk; hide BoostedBelow; hide BoostedChildren;
    forall g | g in s.rt && g > q ensures s.rt[g].nrBoosted != 0 <==> BoostedBelow(s, g) {
      assert After(s, g) < After(s, q) by { assert g in After(s, q); }
      Smaller(After(s, g), After(s, q));
      BoostedIsTasks(s, g);
    }
    BoostsWeigh(s, q);
    BoostedLists(s, s.rt[q].list);
    AllBoosted(s, q);
    assert QueueOk(s, q);
    BoostedCounts(s, q);
    SomeChild(s, q);
  }

  lemma BoostedCounts(s: State, q: nat)
    requires WellFormed(s) && q in s.rt && QueueOk(s, q)
    ensures s.rt[q].nrBoosted == SumLists(s, s.rt[q].list, Boosted)
  {
    assert Counter(s.rt[q], Boosted) == SumLists(s, s.rt[q].list, Boosted);
  }

  lemma BoostsWeigh(s: State, q: nat)
    requires Consistent(s) && q in s.rt
    requires forall g :: g in s.rt && g > q ==> (s.rt[g].nrBoosted != 0 <==> BoostedBelow(s, g))
    ensures var ls := s.rt[q].list;
            Apart(ls) && forall i :: 0 <= i < |ls| ==> Distinct(ls[i]) && BoostIsLoad(s, ls[i])
  {
    hide SumLists; hide BoostedBelow;
    var ls := s.rt[q].list;
    assert QueueOk(s, q);
    forall i | 0 <= i < |ls| ensures PlacedAt(s, q, i, ls[i]) {
    }
  }

  lemma AllBoosted(s: State, q: nat)
    requires Consistent(s) && q in s.rt
    ensures BoostedOn(s, s.rt[q].list) == BoostedChildren(s, q)
  {
    hide SumLists; hide Boosts;
    var ls := s.rt[q].list;
    assert QueueOk(s, q);
    forall e ensures e in BoostedOn(s, ls) <==> e in BoostedChildren(s, q) {
      BoostedOnIs(s, ls, e);
      if e in BoostedChildren(s, q) {
        assert EntityOk(s, e);
        assert e in ls[Prio(s, e)];
      }
      if OnSome(ls, e) {
        var i :| 0 <= i < |ls| && e in ls[i];
        assert PlacedAt(s, q, i, ls[i]);
      }
    }
  }

  /** A boosted task below `q` enters it through a boosted child. */
  lemma SomeChild(s: State, q: nat)
    requires WellFormed(s) && q in s.rt
    ensures |BoostedChildren(s, q)| != 0 <==> BoostedBelow(s, q)
  {
    if BoostedBelow(s, q) {
      var t :| t in s.task && Counts(s, t, q) && BoostedTask(s, t);
      var e := Entry(s, Task(t), q);
      if e.Group? {
        ThroughGroup(s, Task(t), e.id);
        assert Counts(s, t, e.id);
      }
      assert e in BoostedChildren(s, q);
    }
    if |BoostedChildren(s, q)| != 0 {
      var e :| e in BoostedChildren(s, q);
      match e
      case Task(t) => assert Counts(s, t, q);
      case Group(g) =>
        var t :| t in s.task && Counts(s, t, g) && BoostedTask(s, t);
        ThroughGroup(s, Task(t), g);
        assert Counts(s, t, q);
    }
  }
}
