/** A dequeue with SAVE and the enqueue with RESTORE that follows it, without MOVE, in a tree of groups:
    entities leave and enter their queues' counts but stay on their lists. Such a pair gives the run
    queue back exactly, unless it drops a group on the way. */
module RtGroupSave {
  import opened Lists
  import opened RtGroupQueues

  // ----- The routines for flags that do not move

  /** `dec_rt_tasks` on queue `q` for an entity of priority `p`. */
  function Lighten(q: RtRq, p: int, nr: int, rr: int, boosted: int): (r: RtRq)
    requires ArrayShape(q)
    ensures ArrayShape(r)
  {
    var hi := if q.nr == nr then MAX_RT_PRIO else if p == q.hi then FirstBit(q.bitmap, 0) else q.hi;
    q.(nr := q.nr - nr, rr := q.rr - rr, nrBoosted := q.nrBoosted - boosted, hi := hi)
  }

  /** `inc_rt_tasks`. */
  function Weight(q: RtRq, p: int, nr: int, rr: int, boosted: int): (r: RtRq)
    requires ArrayShape(q)
    ensures ArrayShape(r)
  {
    q.(nr := q.nr + nr, rr := q.rr + rr, nrBoosted := q.nrBoosted + boosted, hi := if p < q.hi then p else q.hi)
  }

  /** `__dequeue_rt_entity` without moving. */
  ghost function SaveOff(s: State, e: Entity): (r: State)
    requires WellFormed(s) && Known(s, e)
    ensures WellFormed(r)
  {
    var q := Owner(s, e);
    var new_ := Lighten(s.rt[q], Prio(s, e), Load(s, e, Running), Load(s, e, RoundRobin), Load(s, e, Boosted));
    s.(rt := s.rt[q := new_], onRq := s.onRq - {e})
  }

  /** `__enqueue_rt_entity` without moving, once the group has passed its test. */
  ghost function SaveOn(s: State, e: Entity): (r: State)
    requires WellFormed(s) && Known(s, e)
    ensures WellFormed(r)
  {
    var q := Owner(s, e);
    var new_ := Weight(s.rt[q], Prio(s, e), Load(s, e, Running), Load(s, e, RoundRobin), Load(s, e, Boosted));
    s.(rt := s.rt[q := new_], onRq := s.onRq + {e})
  }

  /** `__delist_rt_entity`. There is no slot 100; `PairInRange` shows that no pair asks for it, so what
      happens there is of no account. */
  ghost function DelistOnly(s: State, e: Entity): (r: State)
    requires WellFormed(s) && Known(s, e)
    ensures WellFormed(r)
  {
    var q, p := Owner(s, e), Prio(s, e);
    var list := Unlink(s.rt[q].list, e);
    var bitmap := if 0 <= p < MAX_RT_PRIO && list[p] == [] then s.rt[q].bitmap[p := false] else s.rt[q].bitmap;
    s.(rt := s.rt[q := s.rt[q].(list := list, bitmap := bitmap)], onList := s.onList - {e})
  }

  /** `r` differs from `s` only in the queues of the chain of `e` and in where the chain stands. */
  ghost predicate Near(s: State, r: State, e: Entity)
    requires WellFormed(s) && Known(s, e)
  {
    && WellFormed(r) && r == s.(rt := r.rt, onRq := r.onRq, onList := r.onList)
    && (forall q :: q in s.rt ==> r.rt[q].throttled == s.rt[q].throttled)
    && (forall q :: q in s.rt && q > Owner(s, e) ==> r.rt[q] == s.rt[q])
    && (forall x :: x != e && (x.Group? ==> x.id > Owner(s, e)) ==> (x in r.onRq <==> x in s.onRq))
  }

  lemma NearTrans(s: State, m: State, r: State, e: Entity)
    requires WellFormed(s) && Known(s, e) && Near(s, m, e) && Near(m, r, e)
    ensures Near(s, r, e)
  {
    assert Owner(m, e) == Owner(s, e);
  }

  /** What holds of the chain above `e` holds of the chain of `e`. */
  lemma NearUp(s: State, r: State, e: Entity)
    requires WellFormed(s) && Known(s, e) && Owner(s, e) != ROOT && Near(s, r, Group(Owner(s, e)))
    ensures Near(s, r, e) && Known(r, e) && Owner(r, e) == Owner(s, e)
    ensures r.rt[Owner(s, e)] == s.rt[Owner(s, e)] && (e in r.onRq <==> e in s.onRq)
    ensures e.Group? ==> r.rt[e.id] == s.rt[e.id]
  {
  }

  ghost predicate Saved(s: State, r: State, e: Entity)
    requires WellFormed(s) && Known(s, e)
  {
    Near(s, r, e) && r.onList == s.onList && e !in r.onRq
  }

  lemma SaveOffStep(s: State, m: State, e: Entity)
    requires WellFormed(s) && Known(s, e) && Near(s, m, e) && m.onList == s.onList
    ensures Known(m, e) && Saved(s, if e in m.onRq then SaveOff(m, e) else m, e)
  {
    NearKnown(s, m, e);
    hide SaveOff; hide Near;
    if e in m.onRq {
      SaveOffNear(m, e);
      NearTrans(s, m, SaveOff(m, e), e);
    }
  }

  lemma NearKnown(s: State, m: State, e: Entity)
    requires WellFormed(s) && Known(s, e) && Near(s, m, e)
    ensures WellFormed(m) && Known(m, e) && Owner(m, e) == Owner(s, e)
  {
  }

  lemma SaveOffNear(s: State, e: Entity)
    requires WellFormed(s) && Known(s, e)
    ensures Saved(s, SaveOff(s, e), e)
  {
  }

  lemma SaveOnNear(s: State, e: Entity)
    requires WellFormed(s) && Known(s, e)
    ensures Near(s, SaveOn(s, e), e) && SaveOn(s, e).onList == s.onList
  {
  }

  lemma DelistNear(s: State, e: Entity)
    requires WellFormed(s) && Known(s, e)
    ensures Near(s, DelistOnly(s, e), e)
  {
  }

  /** The top-down loop of `dequeue_rt_stack`. */
  ghost function SaveDown(s: State, e: Entity): (r: State)
    requires WellFormed(s) && Known(s, e)
    ensures Saved(s, r, e)
    decreases Owner(s, e)
  {
    hide SaveOff; hide Near;
    var q := Owner(s, e);
    if q == ROOT then
      NearSame(s, e);
      SaveOffStep(s, s, e);
      if e in s.onRq then SaveOff(s, e) else s
    else
      var m := SaveDown(s, Group(q));
      NearUp(s, m, e);
      SaveOffStep(s, m, e);
      if e in m.onRq then SaveOff(m, e) else m
  }

  lemma NearSame(s: State, e: Entity)
    requires WellFormed(s) && Known(s, e)
    ensures Near(s, s, e)
  {
  }

  /** One turn of the bottom-up loops: of `dequeue_rt_entity` when `guarded`, else of `enqueue_rt_entity`. */
  ghost function KeepOn(s: State, e: Entity, guarded: bool): (r: State)
    requires WellFormed(s) && Known(s, e)
    ensures Near(s, r, e) && r.onList <= s.onList
  {
    SaveOnNear(s, e);
    DelistNear(s, e);
    NearSame(s, e);
    hide SaveOn; hide Near; hide Throttled;
    if guarded && (e.Task? || s.rt[e.id].nr == 0) then s
    else if Admits(s, e) then SaveOn(s, e)
    else if e in s.onList then DelistOnly(s, e) else s
  }

  ghost function KeepUp(s: State, e: Entity, guarded: bool): (r: State)
    requires WellFormed(s) && Known(s, e)
    ensures Near(s, r, e) && r.onList <= s.onList
    decreases Owner(s, e)
  {
    hide Near; hide KeepOn;
    var m := KeepOn(s, e, guarded);
    var q := Owner(s, e);
    NearKnown(s, m, e);
    if q == ROOT then m else
      var r := KeepUp(m, Group(q), guarded);
      NearUp(m, r, e);
      NearTrans(s, m, r, e);
      r
  }

  // ----- Off and on again

  lemma OthersEmpty(s: State, q: nat, ls: seq<seq<Entity>>, e: Entity, p: nat, i: nat)
    requires p < |ls| && i < |ls| && Distinct(ls[p]) && e in ls[p] && SumLists(s, ls, Running) == Load(s, e, Running)
    requires forall j :: 0 <= j < |ls| ==> AllWeigh(s, ls[j])
    ensures i != p ==> ls[i] == []
  {
    hide SumLists; hide Sum;
    var rest := ls[p := Without(ls[p], e)];
    SumWithout(s, ls[p], e, Running);
    SumListsUpdate(s, ls, p, rest[p], Running);
    assert SumLists(s, rest, Running) == 0;
    forall j | 0 <= j < |rest| ensures AllWeigh(s, rest[j]) {
      assert AllWeigh(s, ls[j]);
    }
    SumListsPositive(s, rest);
    assert rest[i] == [];
  }

  /** A queue that loses its only entity had that entity's priority. */
  lemma OnlyChild(s: State, e: Entity)
    requires Consistent(s) && e in s.onRq && s.rt[Owner(s, e)].nr == Load(s, e, Running)
    ensures s.rt[Owner(s, e)].hi == Prio(s, e)
  {
    hide SumLists; hide Load;
    assert EntityOk(s, e);
    var q, p := Owner(s, e), Prio(s, e);
    assert QueueOk(s, q);
    var ls := s.rt[q].list;
    assert PlacedAt(s, q, p, ls[p]);
    assert Counter(s.rt[q], Running) == SumLists(s, ls, Running);
    ListsWeigh(s, q);
    forall i | 0 <= i < MAX_RT_PRIO && i != p ensures !s.rt[q].bitmap[i] {
      OthersEmpty(s, q, ls, e, p, i);
    }
    assert s.rt[q].bitmap[p];
  }

  lemma WeighAgain(q: RtRq, p: int, nr: int, rr: int, boosted: int)
    requires ArrayShape(q) && q.hi == FirstBit(q.bitmap, 0) && q.hi <= p < MAX_RT_PRIO && (q.nr == nr ==> q.hi == p)
    ensures Weight(Lighten(q, p, nr, rr, boosted), p, nr, rr, boosted) == q
  {
  }

  lemma OnOff(s: State, e: Entity)
    requires WellFormed(s) && Known(s, e) && e in s.onRq
    requires var q := s.rt[Owner(s, e)];
             && q.hi == FirstBit(q.bitmap, 0) && q.hi <= Prio(s, e) < MAX_RT_PRIO
             && (q.nr == Load(s, e, Running) ==> q.hi == Prio(s, e))
    ensures Known(SaveOff(s, e), e) && SaveOn(SaveOff(s, e), e) == s
  {
    var q := Owner(s, e);
    var m := SaveOff(s, e);
    SaveOffOwn(s, e);
    WeighAgain(s.rt[q], Prio(s, e), Load(s, e, Running), Load(s, e, RoundRobin), Load(s, e, Boosted));
    hide Lighten; hide Weight; hide FirstBit;
    assert Owner(m, e) == q && forall k :: Load(m, e, k) == Load(s, e, k);
    var r := SaveOn(m, e);
    assert r.rt == s.rt && r.onRq == s.onRq;
  }

  /** The best priority as far as a queue with nothing moved knows it. */
  ghost predicate HiOk(q: RtRq)
    requires ArrayShape(q)
  {
    q.hi == if q.nr == 0 then MAX_RT_PRIO else FirstBit(q.bitmap, 0)
  }

  lemma LightenAgain(q: RtRq, p: int, nr: int, rr: int, boosted: int)
    requires ArrayShape(q) && HiOk(q)
    ensures Lighten(Weight(q, p, nr, rr, boosted), p, nr, rr, boosted) == q
  {
  }

  lemma OffOn(s: State, e: Entity)
    requires WellFormed(s) && Known(s, e) && e !in s.onRq && HiOk(s.rt[Owner(s, e)])
    ensures Known(SaveOn(s, e), e) && SaveOff(SaveOn(s, e), e) == s
  {
    var q := Owner(s, e);
    var m := SaveOn(s, e);
    LightenAgain(s.rt[q], Prio(s, e), Load(s, e, Running), Load(s, e, RoundRobin), Load(s, e, Boosted));
    assert e.Group? ==> m.rt[e.id] == s.rt[e.id];
    hide Lighten; hide Weight; hide HiOk;
    assert Owner(m, e) == q && forall k :: Load(m, e, k) == Load(s, e, k);
    var r := SaveOff(m, e);
    assert r.rt == s.rt && r.onRq == s.onRq;
  }

  /** What `OnOff` asks of the queue of a queued entity. */
  lemma QueuedHi(s: State, e: Entity)
    requires Consistent(s) && e in s.onRq
    ensures var q := s.rt[Owner(s, e)];
            && q.hi == FirstBit(q.bitmap, 0) && q.hi <= Prio(s, e) < MAX_RT_PRIO
            && (q.nr == Load(s, e, Running) ==> q.hi == Prio(s, e))
  {
    hide SumLists; hide Load;
    assert EntityOk(s, e) && QueueOk(s, Owner(s, e));
    if s.rt[Owner(s, e)].nr == Load(s, e, Running) {
      OnlyChild(s, e);
    }
    HighestInQueue(s, e);
  }

  /** A queued entity taken off counts in again; one that is off, because its queue cannot run, stays off. */
  lemma TurnBack(s: State, m: State, e: Entity)
    requires Consistent(s) && CompleteOff(s, {}) && Known(s, e) && (e.Task? ==> e in s.onRq)
    requires Near(s, m, e) && m.onList == s.onList && (e in m.onRq <==> e in s.onRq)
    requires m.rt[Owner(s, e)] == s.rt[Owner(s, e)] && (e.Group? ==> m.rt[e.id] == s.rt[e.id])
    ensures Known(m, e)
    ensures var d := if e in m.onRq then SaveOff(m, e) else m;
            Known(d, e) && KeepOn(d, e, false) == m
  {
    hide QueueOk; hide EntityOk; hide CompleteOff;
    NearKnown(s, m, e);
    Standing(s, e);
    if e in s.onRq {
      QueuedHi(s, e);
      TurnBackOn(s, m, e);
    } else {
      hide WellFormed; hide Near;
    }
  }

  lemma Standing(s: State, e: Entity)
    requires Consistent(s) && CompleteOff(s, {}) && Known(s, e)
    ensures e.Group? ==> (e in s.onRq <==> Admits(s, e))
  {
    hide QueueOk; hide EntityOk;
    if e.Group? {
      NonEmpty(s, e.id);
    }
  }

  lemma TurnBackOn(s: State, m: State, e: Entity)
    requires WellFormed(s) && WellFormed(m) && Known(s, e) && Known(m, e) && m.task == s.task && m.tree == s.tree &&
             m.rt.Keys == s.rt.Keys
    requires e in m.onRq && Admits(s, e) && m.rt[Owner(s, e)] == s.rt[Owner(s, e)] &&
             (e.Group? ==> m.rt[e.id] == s.rt[e.id])
    requires var q := s.rt[Owner(s, e)];
             && q.hi == FirstBit(q.bitmap, 0) && q.hi <= Prio(s, e) < MAX_RT_PRIO
             && (q.nr == Load(s, e, Running) ==> q.hi == Prio(s, e))
    ensures Known(SaveOff(m, e), e) && KeepOn(SaveOff(m, e), e, false) == m
  {
    OnOff(m, e);
    SaveOffOwn(m, e);
    hide SaveOff; hide SaveOn; hide WellFormed; hide FirstBit;
  }

  lemma SaveOffOwn(s: State, e: Entity)
    requires WellFormed(s) && Known(s, e)
    ensures e.Group? ==> SaveOff(s, e).rt[e.id] == s.rt[e.id]
  {
  }

  /** RESTORE after the first loop of SAVE puts everything back. */
  lemma {:induction false} Identity(s: State, e: Entity)
    requires Consistent(s) && CompleteOff(s, {}) && Known(s, e) && (e.Task? ==> e in s.onRq)
    ensures Known(SaveDown(s, e), e) && KeepUp(SaveDown(s, e), e, false) == s
    decreases Owner(s, e)
  {
    var q := Owner(s, e);
    var m := s;
    if q == ROOT {
      NearSame(s, e);
    } else {
      m := SaveDown(s, Group(q));
      NearUp(s, m, e);
      Identity(s, Group(q));
    }
    TurnBack(s, m, e);
    hide Near; hide SaveOff; hide KeepOn; hide Consistent;
  }

  // ----- The chain while it is off

  ghost predicate Kin(s: State, y: State) {
    && WellFormed(s) && WellFormed(y) && y == s.(rt := y.rt, onRq := y.onRq, onList := y.onList)
    && forall q :: q in s.rt ==> y.rt[q].throttled == s.rt[q].throttled
  }

  lemma NearKin(s: State, y: State, z: State, e: Entity)
    requires Kin(s, y) && Known(y, e) && Near(y, z, e)
    ensures Kin(s, z)
  {
  }

  /** What `e` adds to its queue in `s`. */
  ghost function Part(s: State, e: Entity, k: Stat): int {
    if e in s.onRq then Load(s, e, k) else 0
  }

  /** In `y` the chain of `e` is off, and its queues count what they count in `s` without it. */
  ghost predicate Bare(s: State, y: State, e: Entity)
    requires Kin(s, y) && Known(s, e)
    decreases Owner(s, e)
  {
    BareAt(s, y, e) && (Owner(s, e) != ROOT ==> Bare(s, y, Group(Owner(s, e))))
  }

  ghost predicate Alike(y: State, z: State, e: Entity, q: nat) {
    && y.rt.Keys == z.rt.Keys && (e in z.onRq <==> e in y.onRq)
    && (forall i :: i in y.rt && i <= q ==> z.rt[i] == y.rt[i])
    && (forall g :: 0 < g <= q ==> (Group(g) in z.onRq <==> Group(g) in y.onRq))
  }

  lemma {:induction false} BareFrame(s: State, y: State, z: State, e: Entity)
    requires Kin(s, y) && Kin(s, z) && Known(s, e) && Bare(s, y, e) && Alike(y, z, e, Owner(s, e))
    ensures Bare(s, z, e)
    decreases Owner(s, e)
  {
    var q := Owner(s, e);
    if q != ROOT {
      BareFrame(s, y, z, Group(q));
    }
  }

  lemma ConsistentHi(s: State, q: nat)
    requires Consistent(s) && q in s.rt
    ensures HiOk(s.rt[q]) && s.rt[q].hi == FirstBit(s.rt[q].bitmap, 0)
  {
    hide SumLists;
    NonEmpty(s, q);
    assert QueueOk(s, q);
  }

  /** Level `e` of `Bare`. */
  ghost predicate BareAt(s: State, y: State, e: Entity)
    requires Kin(s, y) && Known(s, e)
  {
    var q := Owner(s, e);
    && e !in y.onRq && HiOk(y.rt[q])
    && y.rt[q].nr == s.rt[q].nr - Part(s, e, Running) && y.rt[q].nrBoosted == s.rt[q].nrBoosted - Part(s, e, Boosted)
  }

  lemma SameWeight(s: State, m: State, e: Entity)
    requires Kin(s, m) && Known(s, e) && (e.Group? ==> m.rt[e.id] == s.rt[e.id])
    ensures Known(m, e) && Owner(m, e) == Owner(s, e) && forall k :: Load(m, e, k) == Load(s, e, k)
  {
  }

  lemma SaveOffBare(s: State, m: State, d: State, e: Entity)
    requires Kin(s, m) && Kin(s, d) && Known(s, e) && m.rt[Owner(s, e)] == s.rt[Owner(s, e)]
    requires HiOk(s.rt[Owner(s, e)]) && s.rt[Owner(s, e)].hi == FirstBit(s.rt[Owner(s, e)].bitmap, 0)
    requires (e in m.onRq <==> e in s.onRq) && (e.Group? ==> m.rt[e.id] == s.rt[e.id])
    requires Known(m, e) && d == if e in m.onRq then SaveOff(m, e) else m
    ensures BareAt(s, d, e)
  {
    SameWeight(s, m, e);
    hide FirstBit; hide Load; hide WellFormed; hide Known;
  }

  /** SAVE's first loop leaves the chain bare. */
  lemma {:induction false} SaveDownBare(s: State, e: Entity)
    requires Consistent(s) && Known(s, e)
    ensures Kin(s, SaveDown(s, e)) && Bare(s, SaveDown(s, e), e)
    decreases Owner(s, e)
  {
    hide QueueOk; hide EntityOk; hide SaveOff; hide HiOk; hide Near;
    var q, d := Owner(s, e), SaveDown(s, e);
    KinSelf(s, e);
    NearKin(s, s, d, e);
    ConsistentHi(s, q);
    if q == ROOT {
      SaveOffBare(s, s, d, e);
    } else {
      var m := SaveDown(s, Group(q));
      SaveDownBare(s, Group(q));
      NearUp(s, m, e);
      NearKin(s, s, m, e);
      SaveOffBare(s, m, d, e);
      SaveOffAlike(m, e);
      BareFrame(s, m, d, Group(q));
    }
  }

  lemma KinSelf(s: State, e: Entity)
    requires WellFormed(s)
    ensures Kin(s, s)
  {
  }

  lemma SaveOffAlike(m: State, e: Entity)
    requires WellFormed(m) && Known(m, e) && Owner(m, e) != ROOT
    ensures var q := Owner(m, e);
            Alike(m, if e in m.onRq then SaveOff(m, e) else m, Group(q), m.tree.parent[q])
  {
  }

  // ----- The guarded loop

  /** The turn of `e` in SAVE's second loop takes it off its list. */
  ghost predicate Delists(y: State, e: Entity)
    requires Known(y, e)
  {
    e.Group? && y.rt[e.id].nr != 0 && Throttled(y.rt[e.id]) && e in y.onList
  }

  ghost predicate DelistsUp(y: State, e: Entity)
    requires WellFormed(y) && Known(y, e)
    decreases Owner(y, e)
  {
    Delists(y, e) || (Owner(y, e) != ROOT && DelistsUp(KeepOn(y, e, true), Group(Owner(y, e))))
  }

  lemma KeepOnAlike(y: State, e: Entity)
    requires WellFormed(y) && Known(y, e)
    ensures var z := KeepOn(y, e, true);
            && (Delists(y, e) ==> z.onList == y.onList - {e}) && (!Delists(y, e) ==> z.onList == y.onList)
            && (Owner(y, e) != ROOT ==> Alike(y, z, Group(Owner(y, e)), y.tree.parent[Owner(y, e)]))
  {
    hide Alike; hide Near; hide Throttled; hide Weight; hide Unlink;
    if Owner(y, e) != ROOT {
      TurnsAlike(y, e);
    }
  }

  lemma TurnsAlike(y: State, e: Entity)
    requires WellFormed(y) && Known(y, e) && Owner(y, e) != ROOT
    ensures var q := Owner(y, e);
            var x, p := Group(q), y.tree.parent[q];
            Alike(y, y, x, p) && Alike(y, SaveOn(y, e), x, p) && Alike(y, DelistOnly(y, e), x, p)
  {
    var q, on, off := Owner(y, e), SaveOn(y, e), DelistOnly(y, e);
    AlikeBut(y, on, e);
    AlikeBut(y, off, e);
    AlikeBut(y, y, e);
  }

  /** A change to the queue of `e` and to where `e` stands does not show above. */
  lemma AlikeBut(y: State, z: State, e: Entity)
    requires WellFormed(y) && Known(y, e) && Owner(y, e) != ROOT
    requires Owner(y, e) in z.rt && z.rt == y.rt[Owner(y, e) := z.rt[Owner(y, e)]] && forall x :: x != e ==>
             (x in z.onRq <==> x in y.onRq)
    ensures Alike(y, z, Group(Owner(y, e)), y.tree.parent[Owner(y, e)])
  {
  }

  /** Without a delisting, taking the chain off again undoes SAVE's second loop. */
  lemma {:induction false} Undone(s: State, y: State, e: Entity)
    requires Kin(s, y) && Known(s, e) && Bare(s, y, e) && !DelistsUp(y, e)
    ensures var r := KeepUp(y, e, true);
            Known(r, e) && SaveDown(r, e) == y
    decreases Owner(s, e)
  {
    var q, z, r := Owner(s, e), KeepOn(y, e, true), KeepUp(y, e, true);
    NearKnown(y, z, e);
    NearKnown(y, r, e);
    NearKin(s, y, z, e);
    KeepOnAlike(y, e);
    OffOn(y, e);
    assert e in z.onRq ==> z == SaveOn(y, e);
    assert e !in z.onRq ==> z == y;
    if q != ROOT {
      hide KeepOn; hide SaveOff; hide SaveOn; hide Near; hide HiOk;
      BareFrame(s, y, z, Group(q));
      Undone(s, z, Group(q));
    }
  }

  // ----- When a group is dropped

  /** With the task gone, queue `q` counts `nr` and `boosted`. Some queued group from `q` upwards is then
      throttled, no longer boosted, and still not empty. */
  ghost predicate Drops(s: State, q: nat, nr: int, boosted: int)
    requires WellFormed(s) && q in s.rt
    decreases q
  {
    if q == ROOT then false else
    var e, p := Group(q), s.tree.parent[q];
    var stays := nr != 0 && !(s.rt[q].throttled && boosted == 0);
    || (e in s.onRq && nr != 0 && !stays)
    || Drops(s, p, s.rt[p].nr - Part(s, e, Running) + (if stays then nr else 0),
             s.rt[p].nrBoosted - Part(s, e, Boosted) + (if stays && boosted != 0 then 1 else 0))
  }

  lemma KeepOnCounts(y: State, g: nat)
    requires WellFormed(y) && g in y.rt && g != ROOT && !Delists(y, Group(g))
    ensures var z, p, r := KeepOn(y, Group(g), true), y.tree.parent[g], y.rt[g];
            var stays := r.nr != 0 && !(r.throttled && r.nrBoosted == 0);
            && p in z.rt && z.rt[p].nr == y.rt[p].nr + (if stays then r.nr else 0)
            && z.rt[p].nrBoosted == y.rt[p].nrBoosted + (if stays && r.nrBoosted != 0 then 1 else 0)
  {
    var p := Owner(y, Group(g));
    assert SaveOn(y, Group(g)).rt[p].nr == y.rt[p].nr + y.rt[g].nr;
    assert SaveOn(y, Group(g)).rt[p].nrBoosted == y.rt[p].nrBoosted + if y.rt[g].nrBoosted != 0 then 1 else 0;
    hide SaveOn; hide DelistOnly; hide WellFormed;
  }

  lemma DropsNow(s: State, y: State, g: nat)
    requires Kin(s, y) && g in s.rt && g != ROOT && Delists(y, Group(g)) && y.onList == s.onRq
    ensures Drops(s, g, y.rt[g].nr, y.rt[g].nrBoosted)
  {
  }

  lemma DropsUnfold(s: State, g: nat, nr: int, boosted: int, nr': int, boosted': int)
    requires WellFormed(s) && g in s.rt && g != ROOT
    requires var e, p := Group(g), s.tree.parent[g];
             var stays := nr != 0 && !(s.rt[g].throttled && boosted == 0);
             && !(e in s.onRq && nr != 0 && !stays)
             && nr' == s.rt[p].nr - Part(s, e, Running) + (if stays then nr else 0)
             && boosted' == s.rt[p].nrBoosted - Part(s, e, Boosted) + (if stays && boosted != 0 then 1 else 0)
    ensures Drops(s, g, nr, boosted) <==> Drops(s, s.tree.parent[g], nr', boosted')
  {
  }

  lemma DropsLater(s: State, y: State, g: nat)
    requires Kin(s, y) && g in s.rt && g != ROOT && BareAt(s, y, Group(g)) && !Delists(y, Group(g)) &&
             y.onList == s.onRq
    ensures var z, p := KeepOn(y, Group(g), true), s.tree.parent[g];
            p in z.rt && (Drops(s, g, y.rt[g].nr, y.rt[g].nrBoosted) <==> Drops(s, p, z.rt[p].nr, z.rt[p].nrBoosted))
  {
    hide KeepOn; hide HiOk; hide Drops; hide Part; hide Near;
    KeepOnCounts(y, g);
    var z, p := KeepOn(y, Group(g), true), s.tree.parent[g];
    DropsUnfold(s, g, y.rt[g].nr, y.rt[g].nrBoosted, z.rt[p].nr, z.rt[p].nrBoosted);
  }

  lemma {:induction false} DropsIff(s: State, y: State, g: nat)
    requires Kin(s, y) && g in s.rt && g != ROOT && Bare(s, y, Group(g)) && y.onList == s.onRq
    ensures DelistsUp(y, Group(g)) <==> Drops(s, g, y.rt[g].nr, y.rt[g].nrBoosted)
    decreases g
  {
    hide KeepOn; hide Near; hide HiOk; hide Drops; hide Delists;
    var e, p, z := Group(g), s.tree.parent[g], KeepOn(y, Group(g), true);
    KeepOnAlike(y, e);
    if Delists(y, e) {
      DropsNow(s, y, g);
    } else {
      DropsLater(s, y, g);
      NearKin(s, y, z, e);
      if p != ROOT {
        BareFrame(s, y, z, Group(p));
        DropsIff(s, z, p);
      } else {
        NoDropAtRoot(s, z.rt[p].nr, z.rt[p].nrBoosted);
      }
    }
  }

  /** A delisting is never made good. */
  lemma {:induction false} Delisted(y: State, e: Entity) returns (g: nat)
    requires WellFormed(y) && Known(y, e) && DelistsUp(y, e)
    ensures g in y.rt && Group(g) in y.onList && Group(g) !in KeepUp(y, e, true).onList
    decreases Owner(y, e)
  {
    hide Near; hide Throttled; hide Alike;
    var z := KeepOn(y, e, true);
    NearKnown(y, z, e);
    KeepOnAlike(y, e);
    if Delists(y, e) {
      g := e.id;
      assert e !in z.onList;
    } else {
      g := Delisted(z, Group(Owner(y, e)));
    }
  }

  // ----- What the pair always restores

  /** The same counts, flags and queued entities; lists and cached priorities may differ. */
  ghost predicate Tally(x: State, y: State) {
    && Kin(x, y) && x.onRq == y.onRq
    && forall q :: q in x.rt ==> SameCounts(x.rt[q], y.rt[q])
  }

  predicate SameCounts(q: RtRq, r: RtRq) {
    q.nr == r.nr && q.rr == r.rr && q.nrBoosted == r.nrBoosted
  }

  lemma TallyLoad(x: State, y: State, e: Entity)
    requires Tally(x, y) && Known(x, e)
    ensures Known(y, e) && Owner(y, e) == Owner(x, e) && (forall k :: Load(y, e, k) == Load(x, e, k)) &&
            (Admits(x, e) <==> Admits(y, e))
  {
    if e.Group? {
      assert SameCounts(x.rt[e.id], y.rt[e.id]);
    }
  }

  /** Replacing one queue on both sides by queues of the same counts. */
  lemma TallyPut(x: State, y: State, q: nat, nx: RtRq, ny: RtRq, on: set<Entity>)
    requires Tally(x, y) && q in x.rt && SameCounts(nx, ny) && ArrayShape(nx) && ArrayShape(ny) &&
             nx.throttled == ny.throttled
    ensures Tally(x.(rt := x.rt[q := nx], onRq := on), y.(rt := y.rt[q := ny], onRq := on))
  {
  }

  lemma TallyOff(x: State, y: State, e: Entity)
    requires Tally(x, y) && Known(x, e)
    ensures Known(y, e) && Tally(SaveOff(x, e), SaveOff(y, e))
  {
    hide Load; hide FirstBit; hide Prio; hide Admits;
    TallyLoad(x, y, e);
    var q := Owner(x, e);
    assert SameCounts(x.rt[q], y.rt[q]);
    var ox, oy := SaveOff(x, e), SaveOff(y, e);
    TallyPut(x, y, q, ox.rt[q], oy.rt[q], x.onRq - {e});
  }

  lemma TallyOn(x: State, y: State, e: Entity)
    requires Tally(x, y) && Known(x, e)
    ensures Known(y, e) && Tally(SaveOn(x, e), SaveOn(y, e))
  {
    hide Load; hide FirstBit; hide Prio; hide Admits;
    TallyLoad(x, y, e);
    var q := Owner(x, e);
    assert SameCounts(x.rt[q], y.rt[q]);
    var ox, oy := SaveOn(x, e), SaveOn(y, e);
    TallyPut(x, y, q, ox.rt[q], oy.rt[q], x.onRq + {e});
  }

  lemma TallyDelist(x: State, e: Entity)
    requires WellFormed(x) && Known(x, e)
    ensures Tally(x, DelistOnly(x, e))
  {
  }

  lemma {:induction false} TallyDown(x: State, y: State, e: Entity)
    requires Tally(x, y) && Known(x, e)
    ensures Known(y, e) && Tally(SaveDown(x, e), SaveDown(y, e))
    decreases Owner(x, e)
  {
    hide SaveOff; hide Near;
    TallyLoad(x, y, e);
    var q := Owner(x, e);
    var mx, my := x, y;
    if q != ROOT {
      TallyDown(x, y, Group(q));
      mx, my := SaveDown(x, Group(q)), SaveDown(y, Group(q));
      NearUp(x, mx, e);
      NearUp(y, my, e);
    }
    if e in mx.onRq {
      TallyOff(mx, my, e);
    }
  }

  lemma TallyTurn(x: State, y: State, e: Entity, guarded: bool)
    requires Tally(x, y) && Known(x, e)
    ensures Known(y, e) && Tally(KeepOn(x, e, guarded), KeepOn(y, e, guarded))
  {
    TallyLoad(x, y, e);
    assert e.Group? ==> SameCounts(x.rt[e.id], y.rt[e.id]);
    if Admits(x, e) && !(guarded && (e.Task? || x.rt[e.id].nr == 0)) {
      TallyOn(x, y, e);
    } else {
      TurnTally(x, e, guarded);
      TurnTally(y, e, guarded);
      TallyFork(x, KeepOn(x, e, guarded), y, KeepOn(y, e, guarded));
    }
  }

  lemma TurnTally(x: State, e: Entity, guarded: bool)
    requires WellFormed(x) && Known(x, e)
    requires !Admits(x, e) || (guarded && (e.Task? || x.rt[e.id].nr == 0))
    ensures Tally(x, KeepOn(x, e, guarded))
  {
    TallyDelist(x, e);
    TallySelf(x);
    hide Tally; hide DelistOnly;
  }

  lemma TallyFork(x: State, x': State, y: State, y': State)
    requires Tally(x, y) && Tally(x, x') && Tally(y, y')
    ensures Tally(x', y')
  {
    forall q | q in x'.rt ensures SameCounts(x'.rt[q], y'.rt[q]) {
      assert SameCounts(x.rt[q], y.rt[q]) && SameCounts(x.rt[q], x'.rt[q]) && SameCounts(y.rt[q], y'.rt[q]);
    }
  }

  lemma TallySelf(x: State)
    requires WellFormed(x)
    ensures Tally(x, x)
  {
  }

  lemma {:induction false} TallyUp(x: State, y: State, e: Entity, guarded: bool)
    requires Tally(x, y) && Known(x, e)
    ensures Known(y, e) && Tally(KeepUp(x, e, guarded), KeepUp(y, e, guarded))
    decreases Owner(x, e)
  {
    hide KeepOn; hide Near;
    TallyLoad(x, y, e);
    TallyTurn(x, y, e, guarded);
    var mx, my := KeepOn(x, e, guarded), KeepOn(y, e, guarded);
    NearKnown(x, mx, e);
    NearKnown(y, my, e);
    if Owner(x, e) != ROOT {
      TallyUp(mx, my, Group(Owner(x, e)), guarded);
    }
  }

  /** Taking the chain off again undoes the counts of SAVE's second loop, delisting or not. */
  lemma {:induction false} UndoneTally(s: State, y: State, e: Entity)
    requires Kin(s, y) && Known(s, e) && Bare(s, y, e)
    ensures var r := KeepUp(y, e, true);
            Known(r, e) && Tally(SaveDown(r, e), y)
    decreases Owner(s, e)
  {
    var q, z, r := Owner(s, e), KeepOn(y, e, true), KeepUp(y, e, true);
    NearKnown(y, z, e);
    NearKnown(y, r, e);
    NearKin(s, y, z, e);
    KeepOnAlike(y, e);
    TurnOff(y, e);
    hide KeepOn; hide SaveOff; hide Near; hide HiOk; hide Tally;
    var m := z;
    if q == ROOT {
      TallySelf(z);
    } else {
      BareFrame(s, y, z, Group(q));
      UndoneTally(s, z, Group(q));
      m := SaveDown(r, Group(q));
      NearUp(r, m, e);
    }
    UndoneStep(z, m, y, e);
  }

  /** The entity taken off after its turn. */
  lemma TurnOff(y: State, e: Entity)
    requires WellFormed(y) && Known(y, e) && e !in y.onRq && HiOk(y.rt[Owner(y, e)])
    ensures var z := KeepOn(y, e, true);
            Known(z, e) && Tally(if e in z.onRq then SaveOff(z, e) else z, y)
  {
    hide Tally; hide SaveOff; hide Near; hide HiOk; hide Throttled; hide Weight; hide Unlink;
    OffOn(y, e);
    TallyDelist(y, e);
    TallySelf(y);
    TallyFork(y, DelistOnly(y, e), y, y);
    NearKnown(y, KeepOn(y, e, true), e);
  }

  lemma UndoneStep(z: State, m: State, y: State, e: Entity)
    requires Tally(m, z) && Known(m, e) && Known(z, e) && Tally(if e in z.onRq then SaveOff(z, e) else z, y)
    ensures Tally(if e in m.onRq then SaveOff(m, e) else m, y)
  {
    if e in z.onRq {
      TallyOff(m, z, e);
      hide SaveOff;
      TallyChain(SaveOff(m, e), SaveOff(z, e), y);
    } else {
      TallyChain(m, z, y);
    }
  }

  lemma TallyChain(x: State, y: State, z: State)
    requires Tally(x, y) && Tally(y, z)
    ensures Tally(x, z)
  {
    forall q | q in x.rt ensures SameCounts(x.rt[q], z.rt[q]) {
      assert SameCounts(x.rt[q], y.rt[q]) && SameCounts(y.rt[q], z.rt[q]);
    }
  }

  // ----- The pair

  /** `dequeue_rt_entity` with SAVE for task `t`, but for the root's share of `nr_running`. */
  ghost function SaveTree(s: State, t: nat): (r: State)
    requires WellFormed(s) && t in s.task
    ensures WellFormed(r) && r.task == s.task
  {
    NearKnown(s, SaveDown(s, Task(t)), Task(t));
    KeepUp(SaveDown(s, Task(t)), Task(t), true)
  }

  /** The same for `enqueue_rt_entity` with RESTORE. */
  ghost function RestoreTree(s: State, t: nat): (r: State)
    requires WellFormed(s) && t in s.task
    ensures WellFormed(r) && r.task == s.task
  {
    NearKnown(s, SaveDown(s, Task(t)), Task(t));
    KeepUp(SaveDown(s, Task(t)), Task(t), false)
  }

  ghost function Save(rq: Rq, t: nat): (r: Rq)
    requires WellFormed(rq.s) && t in rq.s.task
    ensures WellFormed(r.s) && r.s.task == rq.s.task
  {
    EnqueueTop(DequeueTop(rq).(s := SaveTree(rq.s, t)))
  }

  ghost function Restore(rq: Rq, t: nat): Rq
    requires WellFormed(rq.s) && t in rq.s.task
  {
    EnqueueTop(DequeueTop(rq).(s := RestoreTree(rq.s, t)))
  }

  /** Some queued group above `t` is throttled, stays non-empty without `t`, and is boosted only through it. */
  ghost predicate Loses(s: State, t: nat)
    requires WellFormed(s) && t in s.task
  {
    var q := s.task[t].home;
    Drops(s, q, s.rt[q].nr - 1, s.rt[q].nrBoosted - Load(s, Task(t), Boosted))
  }

  lemma TaskDelists(y: State, t: nat)
    requires WellFormed(y) && t in y.task
    ensures DelistsUp(y, Task(t)) <==> y.task[t].home != ROOT && DelistsUp(y, Group(y.task[t].home))
  {
  }

  lemma LosesIff(s: State, d: State, t: nat)
    requires Kin(s, d) && t in s.task && Task(t) in s.onRq && d.onList == s.onRq && Bare(s, d, Task(t))
    ensures DelistsUp(d, Task(t)) <==> Loses(s, t)
  {
    hide HiOk; hide KeepOn; hide DelistsUp; hide Drops;
    var q := s.task[t].home;
    TaskDelists(d, t);
    if q != ROOT {
      DropsIff(s, d, q);
    } else {
      NoDropAtRoot(s, s.rt[q].nr - 1, s.rt[q].nrBoosted - Load(s, Task(t), Boosted));
    }
  }

  lemma NoDropAtRoot(s: State, nr: int, boosted: int)
    requires WellFormed(s)
    ensures !Drops(s, ROOT, nr, boosted)
  {
  }

  /** What becomes of the tree over the whole pair. */
  lemma PairOnTree(s: State, t: nat)
    requires Consistent(s) && CompleteOff(s, {}) && t in s.task && Task(t) in s.onRq
    ensures var r := RestoreTree(SaveTree(s, t), t);
            && Tally(r, s) && (r == s <==> !Loses(s, t))
            && (Loses(s, t) ==> exists g :: g in s.rt && Group(g) in r.onRq && Group(g) !in r.onList)
  {
    hide Near; hide HiOk; hide Tally; hide QueueOk; hide EntityOk; hide KeepUp; hide SaveDown; hide CompleteOff;
    hide DelistsUp;
    var e := Task(t);
    var d := SaveDown(s, e);
    SaveDownBare(s, e);
    Identity(s, e);
    LosesIff(s, d, t);
    hide Bare; hide Loses; hide Consistent;
    var m := KeepUp(d, e, true);
    NearKnown(d, m, e);
    UndoneTally(s, d, e);
    var d' := SaveDown(m, e);
    NearKnown(m, d', e);
    TallyUp(d', d, e, false);
    var r := KeepUp(d', e, false);
    if Loses(s, t) {
      var g := Delisted(d, e);
      assert Group(g) !in r.onList;
      TallySame(r, s);
    } else {
      Undone(s, d, e);
    }
  }

  lemma TallySame(r: State, s: State)
    requires Tally(r, s)
    ensures r.onRq == s.onRq && r.rt.Keys == s.rt.Keys
  {
  }

  /** Leaving and entering `nr_running` around two passes over the tree. */
  lemma TopPair(rq: Rq, m: State, r: State)
    requires ROOT in rq.s.rt && ROOT in m.rt && ROOT in r.rt && SameCounts(r.rt[ROOT], rq.s.rt[ROOT])
    requires r.rt[ROOT].throttled == rq.s.rt[ROOT].throttled && (rq.rtQueued <==> Runnable(rq.s.rt[ROOT])) &&
             rq.s.rt[ROOT].nr >= 0
    ensures var x := EnqueueTop(DequeueTop(rq).(s := m));
            EnqueueTop(DequeueTop(x).(s := r)) == rq.(s := r)
  {
  }

  /** A SAVE/RESTORE pair without MOVE always restores what is queued, every count and `nr_running`. It
      restores the whole run queue exactly when it loses no group; if it does, some group ends up counted
      as queued although no list links it. */
  lemma PairRestoresIff(rq: Rq, t: nat)
    requires Valid(rq) && t in rq.s.task && Task(t) in rq.s.onRq
    ensures var r := Restore(Save(rq, t), t);
            && Tally(r.s, rq.s) && r == rq.(s := r.s)
            && (r == rq <==> !Loses(rq.s, t))
            && (Loses(rq.s, t) ==> exists g :: g in rq.s.rt && Group(g) in r.s.onRq && Group(g) !in r.s.onList)
  {
    hide QueueOk; hide EntityOk; hide CompleteOff; hide SaveTree; hide RestoreTree; hide Loses;
    PairOnTree(rq.s, t);
    NonEmpty(rq.s, ROOT);
    var m := SaveTree(rq.s, t);
    var r := RestoreTree(m, t);
    assert SameCounts(r.rt[ROOT], rq.s.rt[ROOT]);
    hide Consistent;
    TopPair(rq, m, r);
  }

  // ----- SAVE counts as a dequeue does

  lemma TallyList(x: State, y: State, l: set<Entity>)
    requires Tally(x, y)
    ensures Tally(x, y.(onList := l))
  {
  }

  lemma OffTally(y: State, e: Entity)
    requires WellFormed(y) && Known(y, e) && 0 <= Prio(y, e) < MAX_RT_PRIO
    ensures Tally(SaveOff(y, e), Remove(y, e))
  {
    hide Load; hide FirstBit; hide Unlink;
    var q, ox, oy := Owner(y, e), SaveOff(y, e), Remove(y, e);
    TallySelf(y);
    TallyPut(y, y, q, ox.rt[q], oy.rt[q], y.onRq - {e});
    hide Tally; hide Prio; hide Lighten; hide Delist;
    var oy' := y.(rt := y.rt[q := oy.rt[q]], onRq := y.onRq - {e});
    TallyList(ox, oy', oy.onList);
  }

  lemma OffAsRemove(x: State, y: State, e: Entity)
    requires Tally(x, y) && Consistent(y) && Known(x, e) && e in y.onRq
    ensures Known(y, e) && 0 <= Prio(y, e) < MAX_RT_PRIO && Tally(SaveOff(x, e), Remove(y, e))
  {
    hide QueueOk; hide SaveOff; hide Remove;
    TallyOff(x, y, e);
    assert EntityOk(y, e);
    OffTally(y, e);
    hide Tally; hide Consistent;
    TallyChain(SaveOff(x, e), SaveOff(y, e), Remove(y, e));
  }

  lemma {:induction false} DownAsRemove(s: State, e: Entity)
    requires Consistent(s) && Known(s, e)
    ensures Tally(SaveDown(s, e), RemoveDown(s, e))
    decreases Owner(s, e)
  {
    hide SaveOff; hide Near; hide Remove; hide QueueOk; hide EntityOk; hide Frame; hide Off;
    var q := Owner(s, e);
    var x, y := s, s;
    TallySelf(s);
    if q != ROOT {
      DownAsRemove(s, Group(q));
      x, y := SaveDown(s, Group(q)), RemoveDown(s, Group(q));
      NearUp(s, x, e);
      UnlinkedKnown(s, y, Group(q));
    }
    hide Tally;
    TallyQueued(x, y, e);
    if e in y.onRq {
      OffAsRemove(x, y, e);
    }
  }

  lemma TallyQueued(x: State, y: State, e: Entity)
    requires Tally(x, y)
    ensures e in x.onRq <==> e in y.onRq
  {
  }

  lemma OnAsInsert(x: State, y: State, e: Entity)
    requires Tally(x, y) && Known(x, e) && Known(y, e) && Admits(y, e) && 0 <= Prio(y, e) < MAX_RT_PRIO
    ensures Tally(SaveOn(x, e), Insert(y, e, false))
  {
    hide Load; hide FirstBit; hide Admits;
    TallyLoad(x, y, e);
    var q := Owner(x, e);
    assert SameCounts(x.rt[q], y.rt[q]);
    var ox, oy := SaveOn(x, e), Insert(y, e, false);
    hide Prio;
    TallyPut(x, y, q, ox.rt[q], oy.rt[q], x.onRq + {e});
    assert Tally(ox, oy.(onList := y.onList));
  }

  lemma TurnAsLink(x: State, y: State, e: Entity)
    requires Tally(x, y) && Known(x, e) && Known(y, e) && (Admits(y, e) ==> 0 <= Prio(y, e) < MAX_RT_PRIO)
    ensures Tally(KeepOn(x, e, true), Link(y, e, false, true))
  {
    TallyLoad(x, y, e);
    assert e.Group? ==> SameCounts(x.rt[e.id], y.rt[e.id]);
    hide SaveOn; hide SameCounts; hide Load; hide Throttled;
    if Admits(x, e) && !(e.Task? || x.rt[e.id].nr == 0) {
      OnAsInsert(x, y, e);
    } else {
      TurnTally(x, e, true);
      TallySelf(y);
      TallyFork(x, KeepOn(x, e, true), y, y);
    }
  }

  lemma {:induction false} UpAsLink(x: State, y: State, e: Entity)
    requires Tally(x, y) && Known(x, e) && Consistent(y) && Known(y, e) && Off(y, Chain(y, e))
    ensures Tally(KeepUp(x, e, true), LinkUp(y, e, false, true))
    decreases Owner(y, e)
  {
    hide QueueOk; hide EntityOk; hide Link; hide Frame; hide Off; hide CompleteOn; hide KeepOn; hide Near;
    TallyLoad(x, y, e);
    var q := Owner(y, e);
    var a := Above(y.tree, q);
    LinkStep(y, e, false, true, a);
    TurnAsLink(x, y, e);
    var mx, my := KeepOn(x, e, true), Link(y, e, false, true);
    NearKnown(x, mx, e);
    if q != ROOT {
      FrameKnown(y, my, a, a + {e}, Group(q));
      UpAsLink(mx, my, Group(q));
    }
  }

  /** The second loop unlinks groups, never a task. */
  lemma {:induction false} TasksStay(y: State, e: Entity, t: nat)
    requires WellFormed(y) && Known(y, e)
    ensures Task(t) in y.onList && e.Group? ==> Task(t) in KeepUp(y, e, true).onList
    decreases Owner(y, e)
  {
    if Owner(y, e) != ROOT {
      NearKnown(y, KeepOn(y, e, true), e);
      TasksStay(KeepOn(y, e, true), Group(Owner(y, e)), t);
    }
  }

  lemma SaveTreeIs(s: State, t: nat)
    requires Consistent(s) && t in s.task
    ensures Known(RemoveDown(s, Task(t)), Task(t)) && Consistent(RemoveDown(s, Task(t)))
    ensures Off(RemoveDown(s, Task(t)), Chain(RemoveDown(s, Task(t)), Task(t)))
    ensures Tally(SaveTree(s, t), LinkUp(RemoveDown(s, Task(t)), Task(t), false, true))
    ensures Task(t) in s.onList ==> Task(t) in SaveTree(s, t).onList
  {
    hide QueueOk; hide EntityOk; hide Off; hide Near; hide KeepUp; hide RemoveDown; hide LinkUp; hide Tally;
    var x, y := SaveDown(s, Task(t)), RemoveDown(s, Task(t));
    DownAsRemove(s, Task(t));
    UnlinkedKnown(s, y, Task(t));
    NearKnown(s, x, Task(t));
    hide SaveDown; hide Consistent; hide Unlinked;
    UpAsLink(x, y, Task(t));
    StayOn(x, t);
  }

  /** A dequeue with SAVE leaves every count, what is queued and `nr_running` as a true dequeue would; but the
      task keeps its place on its list. */
  lemma SaveIsDequeue(rq: Rq, t: nat)
    requires Valid(rq) && t in rq.s.task
    ensures var r, d := Save(rq, t), Step(rq, Dequeue(t));
            && Tally(r.s, d.s) && r.rtQueued == d.rtQueued && r.nrRunning == d.nrRunning
            && Task(t) !in r.s.onRq && (Task(t) in rq.s.onRq ==> Task(t) in r.s.onList)
  {
    var e := Task(t);
    var y := RemoveDown(rq.s, e);
    SaveTreeIs(rq.s, t);
    Widen(rq.s, e);
    RequeueKeeps(rq, e, false, true);
    hide QueueOk; hide EntityOk; hide Off; hide CompleteOff; hide Requeued; hide Runnable;
    hide SaveTree; hide RemoveDown; hide LinkUp; hide Tally; hide DequeueTop; hide EnqueueTop;
    var z := LinkUp(y, e, false, true);
    TopSame(rq, SaveTree(rq.s, t), z);
    TallyQueued(SaveTree(rq.s, t), z, e);
  }

  /** The root's share is settled by counts and flags alone. */
  lemma TopSame(rq: Rq, x: State, y: State)
    requires ROOT in rq.s.rt && Tally(x, y)
    ensures ROOT in x.rt && ROOT in y.rt
    ensures var r, d := EnqueueTop(DequeueTop(rq).(s := x)), EnqueueTop(DequeueTop(rq).(s := y));
            r.s == x && d.s == y && r.rtQueued == d.rtQueued && r.nrRunning == d.nrRunning
  {
    assert SameCounts(x.rt[ROOT], y.rt[ROOT]) && x.rt[ROOT].throttled == y.rt[ROOT].throttled;
  }

  lemma StayOn(y: State, t: nat)
    requires WellFormed(y) && t in y.task
    ensures Task(t) in y.onList ==> Task(t) in KeepUp(y, Task(t), true).onList
  {
    hide Near;
    var e := Task(t);
    assert KeepOn(y, e, true) == y;
    if Owner(y, e) != ROOT {
      TasksStay(y, Group(Owner(y, e)), t);
    }
  }

  /** No group is lost where no group above the task is throttled. */
  lemma {:induction false} DropsNeedsThrottle(s: State, q: nat, nr: int, boosted: int)
    requires WellFormed(s) && q in s.rt && Drops(s, q, nr, boosted)
    ensures exists g :: g in s.rt && Group(g) in Above(s.tree, q) && s.rt[g].throttled && Group(g) in s.onRq
    decreases q
  {
    var e, p := Group(q), s.tree.parent[q];
    var stays := nr != 0 && !(s.rt[q].throttled && boosted == 0);
    if e in s.onRq && nr != 0 && !stays {
      assert e in Above(s.tree, q);
    } else {
      DropsNeedsThrottle(s, p, s.rt[p].nr - Part(s, e, Running) + (if stays then nr else 0),
                         s.rt[p].nrBoosted - Part(s, e, Boosted) + (if stays && boosted != 0 then 1 else 0));
    }
  }

  // ----- No count goes below zero

  ghost predicate NonNegative(s: State) {
    forall q :: q in s.rt ==> s.rt[q].nr >= 0
  }

  lemma PartAtMost(s: State, e: Entity)
    requires Consistent(s) && Known(s, e)
    ensures Part(s, e, Running) <= s.rt[Owner(s, e)].nr
  {
    NonEmpty(s, Owner(s, e));
    if e in s.onRq {
      hide SumLists; hide Load;
      assert EntityOk(s, e);
      var q, p := Owner(s, e), Prio(s, e);
      assert QueueOk(s, q);
      assert PlacedAt(s, q, p, s.rt[q].list[p]);
      assert Counter(s.rt[q], Running) == SumLists(s, s.rt[q].list, Running);
      ListsWeigh(s, q);
      LoadAtMost(s, s.rt[q].list, e, p);
    }
  }

  lemma LoadAtMost(s: State, ls: seq<seq<Entity>>, e: Entity, p: nat)
    requires p < |ls| && Distinct(ls[p]) && e in ls[p] && forall j :: 0 <= j < |ls| ==> AllWeigh(s, ls[j])
    ensures Load(s, e, Running) <= SumLists(s, ls, Running)
  {
    hide SumLists; hide Sum;
    var rest := ls[p := Without(ls[p], e)];
    SumWithout(s, ls[p], e, Running);
    SumListsUpdate(s, ls, p, rest[p], Running);
    forall j | 0 <= j < |rest| ensures AllWeigh(s, rest[j]) {
      assert AllWeigh(s, ls[j]);
    }
    SumListsPositive(s, rest);
  }

  lemma AllNonNegative(s: State)
    requires Consistent(s)
    ensures NonNegative(s)
  {
    hide QueueOk; hide EntityOk;
    forall g | g in s.rt ensures s.rt[g].nr >= 0 {
      NonEmpty(s, g);
    }
  }

  lemma {:induction false} SaveDownNonNegative(s: State, e: Entity)
    requires Consistent(s) && Known(s, e)
    ensures NonNegative(SaveDown(s, e))
    decreases Owner(s, e)
  {
    hide QueueOk; hide EntityOk; hide SaveOff; hide HiOk; hide Near;
    var q, d := Owner(s, e), SaveDown(s, e);
    AllNonNegative(s);
    PartAtMost(s, e);
    SaveDownBare(s, e);
    var m := s;
    if q != ROOT {
      SaveDownNonNegative(s, Group(q));
      m := SaveDown(s, Group(q));
      NearUp(s, m, e);
    }
    assert d == if e in m.onRq then SaveOff(m, e) else m;
    SaveOffOthers(m, e);
    hide Consistent;
  }

  lemma SaveOffOthers(m: State, e: Entity)
    requires WellFormed(m) && Known(m, e)
    ensures var d := SaveOff(m, e);
            d.rt.Keys == m.rt.Keys && forall g :: g in m.rt && g != Owner(m, e) ==> d.rt[g] == m.rt[g]
  {
  }

  lemma KeepOnNonNegative(y: State, e: Entity, guarded: bool)
    requires WellFormed(y) && Known(y, e) && NonNegative(y)
    ensures NonNegative(KeepOn(y, e, guarded))
  {
    hide Near; hide Unlink; hide Throttled;
  }

  lemma {:induction false} KeepUpNonNegative(y: State, e: Entity, guarded: bool)
    requires WellFormed(y) && Known(y, e) && NonNegative(y)
    ensures NonNegative(KeepUp(y, e, guarded))
    decreases Owner(y, e)
  {
    hide KeepOn; hide Near;
    var z := KeepOn(y, e, guarded);
    NearKnown(y, z, e);
    KeepOnNonNegative(y, e, guarded);
    if Owner(y, e) != ROOT {
      KeepUpNonNegative(z, Group(Owner(y, e)), guarded);
    }
  }

  // ----- Every delisting is at a real slot

  /** The turn of `e` takes it off its list. */
  ghost predicate TurnDelists(y: State, e: Entity, guarded: bool)
    requires WellFormed(y) && Known(y, e)
  {
    !(guarded && (e.Task? || y.rt[e.id].nr == 0)) && !Admits(y, e) && e in y.onList
  }

  ghost predicate InRange(y: State, e: Entity, guarded: bool)
    requires WellFormed(y) && Known(y, e)
  {
    TurnDelists(y, e, guarded) ==> 0 <= Prio(y, e) < MAX_RT_PRIO
  }

  /** Whatever the loop delists on its way up has a priority. */
  ghost predicate InRangeUp(y: State, e: Entity, guarded: bool)
    requires WellFormed(y) && Known(y, e)
    decreases Owner(y, e)
  {
    && InRange(y, e, guarded)
    && (Owner(y, e) != ROOT ==> InRangeUp(KeepOn(y, e, guarded), Group(Owner(y, e)), guarded))
  }

  /** A queue with something in it has a best priority. */
  ghost predicate HasBest(q: RtRq) {
    0 <= q.hi <= MAX_RT_PRIO && (q.nr != 0 ==> q.hi < MAX_RT_PRIO)
  }

  ghost predicate AllHaveBest(s: State) {
    forall q :: q in s.rt ==> HasBest(s.rt[q])
  }

  lemma ConsistentHasBest(s: State)
    requires Consistent(s)
    ensures AllHaveBest(s)
  {
    hide QueueOk; hide EntityOk;
    forall q | q in s.rt ensures HasBest(s.rt[q]) {
      NonEmpty(s, q);
    }
  }

  lemma SaveOffHasBest(s: State, m: State, e: Entity)
    requires Consistent(s) && e in s.onRq && WellFormed(m) && Known(m, e) && AllHaveBest(m)
    requires Known(s, e) && Owner(m, e) == Owner(s, e) && m.rt[Owner(s, e)] == s.rt[Owner(s, e)]
    ensures AllHaveBest(SaveOff(m, e))
  {
    hide QueueOk; hide EntityOk;
    QueuedHi(s, e);
    ConsistentHi(s, Owner(s, e));
    SaveOffOthers(m, e);
    hide Consistent; hide FirstBit; hide Load;
  }

  lemma {:induction false} SaveDownHasBest(s: State, e: Entity)
    requires Consistent(s) && Known(s, e)
    ensures AllHaveBest(SaveDown(s, e))
    decreases Owner(s, e)
  {
    hide QueueOk; hide EntityOk; hide SaveOff; hide Near;
    ConsistentHasBest(s);
    var q, m := Owner(s, e), s;
    if q != ROOT {
      SaveDownHasBest(s, Group(q));
      m := SaveDown(s, Group(q));
      NearUp(s, m, e);
    }
    if e in s.onRq {
      SaveOffHasBest(s, m, e);
    }
  }

  lemma KeepOnHasBest(y: State, e: Entity, guarded: bool)
    requires WellFormed(y) && Known(y, e) && AllHaveBest(y)
    ensures AllHaveBest(KeepOn(y, e, guarded)) && (guarded ==> InRange(y, e, guarded))
  {
    hide Near; hide Unlink; hide Throttled; hide FirstBit;
    if e.Group? {
      assert HasBest(y.rt[e.id]);
    }
    assert HasBest(y.rt[Owner(y, e)]);
  }

  lemma {:induction false} SaveInRange(y: State, e: Entity)
    requires WellFormed(y) && Known(y, e) && AllHaveBest(y)
    ensures InRangeUp(y, e, true)
    decreases Owner(y, e)
  {
    hide KeepOn; hide Near; hide InRange; hide AllHaveBest;
    KeepOnHasBest(y, e, true);
    var z := KeepOn(y, e, true);
    NearKnown(y, z, e);
    if Owner(y, e) != ROOT {
      SaveInRange(z, Group(Owner(y, e)));
    }
  }

  /** A turn of RESTORE admits what was queued, and no other entity is still listed. */
  lemma RestoreTurn(s: State, x: State, d: State, e: Entity)
    requires Consistent(s) && CompleteOff(s, {}) && Known(s, e) && Tally(x, d) && Known(d, e)
    requires x.onList <= s.onList && (e.Group? ==> d.rt[e.id] == s.rt[e.id])
    ensures Known(x, e) && !TurnDelists(x, e, false)
  {
    hide QueueOk; hide EntityOk; hide CompleteOff;
    Standing(s, e);
    TallyBack(x, d);
    TallyLoad(d, x, e);
    assert e.Group? ==> (Admits(d, e) <==> Admits(s, e));
  }

  lemma TallyBack(x: State, y: State)
    requires Tally(x, y)
    ensures Tally(y, x)
  {
    forall q | q in y.rt ensures SameCounts(y.rt[q], x.rt[q]) {
      assert SameCounts(x.rt[q], y.rt[q]);
    }
  }

  /** One turn of RESTORE leads from SAVE's state at `e` to its state one step up. */
  lemma TurnsBack(s: State, e: Entity)
    requires Consistent(s) && CompleteOff(s, {}) && Known(s, e) && (e.Task? ==> e in s.onRq)
    ensures var d, q := SaveDown(s, e), Owner(s, e);
            && WellFormed(d) && Known(d, e) && Owner(d, e) == q && (e.Group? ==> d.rt[e.id] == s.rt[e.id])
            && KeepOn(d, e, false) == if q == ROOT then s else SaveDown(s, Group(q))
  {
    hide QueueOk; hide EntityOk; hide CompleteOff; hide Near; hide SaveOff; hide KeepOn;
    var q, d, m := Owner(s, e), SaveDown(s, e), s;
    NearKnown(s, d, e);
    if q == ROOT {
      NearSame(s, e);
    } else {
      m := SaveDown(s, Group(q));
      NearUp(s, m, e);
    }
    TurnBack(s, m, e);
    SaveOffOwn(m, e);
  }

  lemma {:induction false} RestoreInRange(s: State, x: State, e: Entity)
    requires Consistent(s) && CompleteOff(s, {}) && Known(s, e) && (e.Task? ==> e in s.onRq)
    requires Tally(x, SaveDown(s, e)) && x.onList <= s.onList
    ensures Known(x, e) && InRangeUp(x, e, false)
    decreases Owner(s, e)
  {
    hide QueueOk; hide EntityOk; hide CompleteOff; hide Near; hide SaveDown; hide Tally; hide KeepOn;
    var q, d := Owner(s, e), SaveDown(s, e);
    TurnsBack(s, e);
    RestoreTurn(s, x, d, e);
    TallyTurn(x, d, e, false);
    TallyShape(x, d, e);
    var z := KeepOn(x, e, false);
    NearKnown(x, z, e);
    assert Owner(x, e) == q;
    if q != ROOT {
      RestoreInRange(s, z, Group(q));
    }
    hide Consistent; hide WellFormed; hide TurnDelists;
  }

  lemma TallyShape(x: State, d: State, e: Entity)
    requires Tally(x, d) && Known(d, e)
    ensures WellFormed(x) && Known(x, e) && WellFormed(d) && Owner(x, e) == Owner(d, e)
  {
  }

  /** Both halves of a pair delist only at real slots: the first only groups that are not empty, the second
      none at all. */
  lemma PairInRange(s: State, t: nat)
    requires Consistent(s) && CompleteOff(s, {}) && t in s.task && Task(t) in s.onRq
    ensures var e := Task(t);
            && Known(SaveDown(s, e), e) && InRangeUp(SaveDown(s, e), e, true)
            && Known(SaveDown(SaveTree(s, t), e), e) && InRangeUp(SaveDown(SaveTree(s, t), e), e, false)
  {
    hide QueueOk; hide EntityOk; hide CompleteOff; hide Near; hide KeepUp; hide SaveDown; hide HiOk; hide Tally;
    var e := Task(t);
    var d := SaveDown(s, e);
    NearKnown(s, d, e);
    SaveDownHasBest(s, e);
    SaveInRange(d, e);
    SaveDownBare(s, e);
    UndoneTally(s, d, e);
    var m := KeepUp(d, e, true);
    NearKnown(d, m, e);
    RestoreInRange(s, SaveDown(m, e), e);
  }

  // ----- A pair that loses a group

  /** One group, with a boosted task 7 and a plain task 8. */
  ghost function OneGroup(): Tree {
    Tree({0, 1}, map[1 := 0])
  }

  ghost function TwoTasks(): map<nat, TaskAttr> {
    map[7 := TaskAttr(1, 10, 50, false), 8 := TaskAttr(1, 20, 20, false)]
  }

  /** Both are enqueued, then the group overruns its runtime: boosted by task 7, it keeps running. */
  ghost function Fateful(): seq<Op> {
    [Enqueue(7, false), Enqueue(8, false), Overrun(1)]
  }

  ghost function NoLists(): seq<seq<Entity>> {
    seq(MAX_RT_PRIO, _ => [])
  }

  lemma NothingToUnlink(ls: seq<seq<Entity>>, e: Entity)
    requires forall i :: 0 <= i < |ls| ==> e !in ls[i]
    ensures Unlink(ls, e) == ls
  {
  }

  lemma TwoListed(s: State, k: Stat)
    requires s.task == TwoTasks()
    ensures SumLists(s, NoLists()[10 := [Task(7)]][20 := [Task(8)]], k)
            == (match k case Running => 2 case RoundRobin => 0 case Boosted => 1)
  {
    var none := NoLists();
    var one := none[10 := [Task(7)]];
    SumOfEmpty(s, none, k);
    SumListsUpdate(s, none, 10, [Task(7)], k);
    SumListsUpdate(s, one, 20, [Task(8)], k);
    assert Sum(s, [Task(7)], k) == Load(s, Task(7), k) by { assert [Task(7)][1..] == []; }
    assert Sum(s, [Task(8)], k) == Load(s, Task(8), k) by { assert [Task(8)][1..] == []; }
    hide SumLists;
    assert one[20] == [];
  }

  /** A task of group 1 joins the queue of the group. */
  lemma Joins(rq: Rq, t: nat)
    requires Sound(rq) && rq.s.task == TwoTasks() && rq.s.tree == OneGroup() && t in TwoTasks()
    requires 1 in rq.s.rt && forall i :: 0 <= i < |rq.s.rt[1].list| ==> Task(t) !in rq.s.rt[1].list[i]
    ensures Enabled(rq, Enqueue(t, false))
    ensures var r, p := Step(rq, Enqueue(t, false)), TwoTasks()[t].prio;
            && Sound(r) && r.s.task == TwoTasks() && r.s.tree == OneGroup() && 1 in r.s.rt &&
               |rq.s.rt[1].list| == MAX_RT_PRIO
            && r.s.rt[1].list == rq.s.rt[1].list[p := rq.s.rt[1].list[p] + [Task(t)]]
            && r.s.rt[1].throttled == rq.s.rt[1].throttled
            && (forall u :: u in TwoTasks() ==> (Task(u) in r.s.onRq <==> Task(u) in rq.s.onRq || u == t))
  {
    hide QueueOk; hide EntityOk; hide CompleteOff; hide Requeue; hide Runnable; hide Unlink;
    StepKeeps(rq, Enqueue(t, false));
    EnqueueOrder(rq, t, false);
    NothingToUnlink(rq.s.rt[1].list, Task(t));
    AnyChain(rq.s, Task(t));
    RequeueKeeps(rq, Task(t), false, false);
  }

  lemma AnyChain(s: State, e: Entity)
    requires WellFormed(s) && Known(s, e) && CompleteOff(s, {})
    ensures CompleteOff(s, Chain(s, e))
  {
    hide Runnable;
  }

  lemma BothJoin() returns (r0: Rq, r1: Rq, r2: Rq)
    ensures r0 == Init(OneGroup(), TwoTasks(), 0)
    ensures Valid(r0) && Enabled(r0, Enqueue(7, false)) && r1 == Step(r0, Enqueue(7, false))
    ensures Valid(r1) && Enabled(r1, Enqueue(8, false)) && r2 == Step(r1, Enqueue(8, false))
    ensures Sound(r2) && r2.s.task == TwoTasks() && r2.s.tree == OneGroup() && 1 in r2.s.rt
    ensures r2.s.rt[1].list == NoLists()[10 := [Task(7)]][20 := [Task(8)]] && Task(7) in r2.s.onRq
  {
    hide Init; hide Step; hide Enabled; hide Sound; hide Valid; hide OneGroup;
    r0 := Init(OneGroup(), TwoTasks(), 0);
    assert OneGroup().Valid() && forall t :: t in TwoTasks() ==>
        TwoTasks()[t].home in OneGroup().groups by { GroupValid(); }
    InitSound(OneGroup(), TwoTasks(), 0);
    InitLists();
    SoundIsValid(r0);
    Joins(r0, 7);
    r1 := Step(r0, Enqueue(7, false));
    SoundIsValid(r1);
    assert NoLists()[10] + [Task(7)] == [Task(7)];
    Joins(r1, 8);
    r2 := Step(r1, Enqueue(8, false));
    assert NoLists()[10 := [Task(7)]][20] + [Task(8)] == [Task(8)];
  }

  lemma GroupValid()
    ensures OneGroup().Valid() && forall t :: t in TwoTasks() ==> TwoTasks()[t].home in OneGroup().groups
  {
  }

  /** The states of that run. */
  lemma FatefulRun() returns (trace: seq<Rq>)
    ensures |trace| == 4 && IsRun(trace, Fateful()) && trace[0] == Init(OneGroup(), TwoTasks(), 0)
    ensures Sound(trace[3]) && trace[3].s.task == TwoTasks() && Task(7) in trace[3].s.onRq
    ensures WellFormed(trace[3].s) && Loses(trace[3].s, 7)
    ensures forall h :: Group(h) in trace[3].s.onRq ==> h == 1
  {
    hide Init; hide Step; hide Enabled; hide Loses; hide Sound; hide Valid; hide OneGroup; hide NoLists;
    var r0, r1, r2 := BothJoin();
    SoundIsValid(r2);
    Overruns(r2);
    trace := [r0, r1, r2, Step(r2, Overrun(1))];
  }

  lemma InitLists()
    ensures var s := Init(OneGroup(), TwoTasks(), 0).s;
            s.task == TwoTasks() && s.tree == OneGroup() && 1 in s.rt && s.rt[1].list == NoLists() && !s.rt[1].throttled
  {
  }

  lemma Overruns(rq: Rq)
    requires Sound(rq) && rq.s.task == TwoTasks() && rq.s.tree == OneGroup() && 1 in rq.s.rt
    requires rq.s.rt[1].list == NoLists()[10 := [Task(7)]][20 := [Task(8)]] && Task(7) in rq.s.onRq
    ensures Enabled(rq, Overrun(1))
    ensures var r := Step(rq, Overrun(1));
            && Sound(r) && r.s.task == TwoTasks() && Task(7) in r.s.onRq && WellFormed(r.s) && Loses(r.s, 7)
            && forall h :: Group(h) in r.s.onRq ==> h == 1
  {
    hide SumLists; hide Placed; hide Cached;
    StepKeeps(rq, Overrun(1));
    assert QueueOk(rq.s, 1);
    assert Counter(rq.s.rt[1], Running) == SumLists(rq.s, rq.s.rt[1].list, Running);
    assert Counter(rq.s.rt[1], Boosted) == SumLists(rq.s, rq.s.rt[1].list, Boosted);
    TwoListed(rq.s, Running);
    TwoListed(rq.s, Boosted);
    hide QueueOk;
    var r := Step(rq, Overrun(1));
    assert r == SetThrottled(rq, 1, true);
    assert Runnable(r.s.rt[1]);
    assert Group(1) in r.s.onRq;
    forall h | Group(h) in r.s.onRq ensures h == 1 {
      assert EntityOk(r.s, Group(h));
    }
  }

  lemma LosesThatOne(rq: Rq, t: nat, g: nat)
    requires Valid(rq) && t in rq.s.task && Task(t) in rq.s.onRq && Loses(rq.s, t)
    requires forall h :: Group(h) in rq.s.onRq ==> h == g
    ensures var r := Restore(Save(rq, t), t);
            Group(g) in r.s.onRq && Group(g) !in r.s.onList && !Valid(r)
  {
    hide Restore; hide Save; hide Loses; hide QueueOk; hide EntityOk; hide CompleteOff; hide WellFormed;
    PairRestoresIff(rq, t);
    var r := Restore(Save(rq, t), t);
    TallySame(r.s, rq.s);
  }

  /** A run from boot after which the pair loses a group: it stays queued, its counts are right, and no list
      links it any more. */
  lemma PairCanLose() returns (trace: seq<Rq>)
    ensures |trace| == 4 && IsRun(trace, Fateful()) && trace[0] == Init(OneGroup(), TwoTasks(), 0)
    ensures WellFormed(trace[3].s) && 7 in trace[3].s.task && Loses(trace[3].s, 7)
    ensures var r := Restore(Save(trace[3], 7), 7);
            Group(1) in r.s.onRq && Group(1) !in r.s.onList && !Valid(r)
  {
    hide Restore; hide Save; hide Loses; hide QueueOk; hide EntityOk; hide CompleteOff; hide WellFormed; hide IsRun;
    trace := FatefulRun();
    LosesThatOne(trace[3], 7, 1);
  }
}
