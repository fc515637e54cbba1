/** The scull device: a linked list of pointer tables of fixed-size blocks that behaves like a flat
    sparse array of bytes. Memory is explicit: an object is live while its address is in the map of its
    kind, so use after free, double free and leaks are all visible. */
module Scull {
  import opened Words

  newtype byte = x: int | 0 <= x < 256

  /** A list item; addresses are positive, 0 is NULL. */
  datatype QSet = QSet(data: nat, next: nat)

  /** The device and what it has allocated. No address is handed out twice; `brk` bounds them. */
  datatype Dev = Dev(data: nat, quantum: nat, qset: nat, size: nat,
                     qsets: map<nat, QSet>, tables: map<nat, seq<nat>>, blocks: map<nat, seq<byte>>, brk: nat)

  // ----- Offsets

  datatype Pos = Pos(item: nat, slot: nat, at: nat)

  /** The position computed by `scull_read` and `scull_write`. */
  function PosOf(off: nat, quantum: nat, qset: nat): Pos
    requires quantum > 0 && qset > 0
  {
    var itemsize := quantum * qset;
    MulPositive(quantum, qset);
    var rest := off % itemsize;
    Pos(off / itemsize, rest / quantum, rest % quantum)
  }

  function OffsetOf(p: Pos, quantum: nat, qset: nat): nat {
    p.item * (quantum * qset) + p.slot * quantum + p.at
  }

  lemma MulPositive(a: nat, b: nat)
    requires a > 0 && b > 0
    ensures a * b > 0 && a * b >= a
  {
    assert a * b == a + a * (b - 1);
    assert a * (b - 1) >= 0;
  }

  lemma DivUnique(a: nat, q: nat, r: nat, d: nat)
    requires d > 0 && a == q * d + r && r < d
    ensures a / d == q && a % d == r
  {
    var q', r' := a / d, a % d;
    assert a == q' * d + r';
    assert (q' - q) * d == r - r';
    if q' > q {
      Scale(1, q' - q, d);
    } else if q' < q {
      Scale(1, q - q', d);
    }
  }

  /** Every offset has a position within bounds, and the position gives the offset back. */
  lemma PosWithin(off: nat, quantum: nat, qset: nat)
    requires quantum > 0 && qset > 0
    ensures var o := PosOf(off, quantum, qset);
            o.slot < qset && o.at < quantum && OffsetOf(o, quantum, qset) == off
  {
    MulPositive(quantum, qset);
    var rest := off % (quantum * qset);
    var slot := rest / quantum;
    assert rest == slot * quantum + rest % quantum;
    if slot >= qset {
      Scale(qset, slot, quantum);
    }
  }

  /** Every position within bounds is the position of its offset. */
  lemma PosInverse(p: Pos, quantum: nat, qset: nat)
    requires p.slot < qset && p.at < quantum
    ensures PosOf(OffsetOf(p, quantum, qset), quantum, qset) == p
  {
    MulPositive(quantum, qset);
    var r := p.slot * quantum + p.at;
    assert r < quantum * qset by {
      Scale(p.slot, qset - 1, quantum);
      assert (qset - 1) * quantum == quantum * qset - quantum;
    }
    DivUnique(OffsetOf(p, quantum, qset), p.item, r, quantum * qset);
    DivUnique(r, p.slot, p.at, quantum);
  }

  // ----- What an int holds of the item number

  /** `int item = ...`: the item number modulo 2^32, as a signed number. */
  function Narrow(item: nat): (n: int)
    ensures -TWO31 <= n < TWO31
  {
    var u := item % TWO32;
    if u < TWO31 then u else u - TWO32
  }

  lemma NarrowExact(item: nat)
    ensures Narrow(item) == item <==> item < TWO31
    ensures Narrow(item) % TWO32 == item % TWO32
  {
  }

  /** `n--` on an int, which wraps. */
  function Down(n: int): int {
    if n == -TWO31 then TWO31 - 1 else n - 1
  }

  /** Counting down from `n` to 0 takes `n` modulo 2^32 steps, also for a negative `n`. */
  lemma DownSteps(n: int)
    requires -TWO31 <= n < TWO31 && n != 0
    ensures n % TWO32 > 0 && Down(n) % TWO32 == n % TWO32 - 1 && -TWO31 <= Down(n) < TWO31
  {
  }

  /** How far two offsets must be apart to share a place. */
  function Span(quantum: nat, qset: nat): (n: nat)
    requires quantum > 0 && qset > 0
    ensures n > 0
  {
    MulPositive(quantum, qset);
    TWO32 * (quantum * qset)
  }

  /** The offset whose place `off` gets. */
  function Fold(off: nat, quantum: nat, qset: nat): nat
    requires quantum > 0 && qset > 0
  {
    off % Span(quantum, qset)
  }

  /** Narrowing the item number folds the offset. */
  lemma FoldPos(off: nat, quantum: nat, qset: nat)
    requires quantum > 0 && qset > 0
    ensures var p := PosOf(off, quantum, qset);
            PosOf(Fold(off, quantum, qset), quantum, qset) == p.(item := p.item % TWO32)
    ensures Fold(off, quantum, qset) == off <==> PosOf(off, quantum, qset).item < TWO32
  {
    var p := PosOf(off, quantum, qset);
    PosWithin(off, quantum, qset);
    hide PosOf;
    var f := p.(item := p.item % TWO32);
    var n, a := quantum * qset, p.item / TWO32;
    MulPositive(quantum, qset);
    assert p.item == a * TWO32 + f.item;
    assert p.item * n == a * (TWO32 * n) + f.item * n;
    OffsetBelow(f, quantum, qset, TWO32);
    DivUnique(off, a, OffsetOf(f, quantum, qset), TWO32 * n);
    PosInverse(f, quantum, qset);
    if p.item >= TWO32 {
      Scale(TWO32, p.item, n);
    }
  }

  lemma OffsetBelow(p: Pos, quantum: nat, qset: nat, items: nat)
    requires p.slot < qset && p.at < quantum && p.item < items
    ensures OffsetOf(p, quantum, qset) < items * (quantum * qset)
  {
    Scale(p.slot, qset - 1, quantum);
    assert (qset - 1) * quantum == quantum * qset - quantum;
    Scale(p.item, items - 1, quantum * qset);
    assert (items - 1) * (quantum * qset) == items * (quantum * qset) - quantum * qset;
  }

  lemma ModAdd(x: nat, j: nat, n: nat)
    requires n > 0 && x % n + j < n
    ensures (x + j) % n == x % n + j
  {
    assert x == x / n * n + x % n;
    DivUnique(x + j, x / n, x % n + j, n);
  }

  lemma ModTurn(x: nat, j: nat, n: nat)
    requires n > 0 && n <= x % n + j < 2 * n
    ensures (x + j) % n == x % n + j - n
  {
    var q := x / n;
    assert x == q * n + x % n;
    assert (q + 1) * n == q * n + n;
    DivUnique(x + j, q + 1, x % n + j - n, n);
  }

  lemma ModTimes(x: nat, k: nat, n: nat)
    requires n > 0
    ensures (x + k * n) % n == x % n
  {
    var q := x / n;
    assert x == q * n + x % n;
    assert (q + k) * n == q * n + k * n;
    assert k * n >= 0;
    DivUnique(x + k * n, q + k, x % n, n);
  }

  /** Offsets a multiple of 2^32 items apart share their place; nearer ones do not. */
  lemma Aliased(off: nat, k: nat, quantum: nat, qset: nat)
    requires quantum > 0 && qset > 0
    ensures Fold(off + k * Span(quantum, qset), quantum, qset) == Fold(off, quantum, qset)
    ensures 0 < k < Span(quantum, qset) ==> Fold(off + k, quantum, qset) != Fold(off, quantum, qset)
  {
    hide Span;
    var n := Span(quantum, qset);
    ModTimes(off, k, n);
    if 0 < k < n {
      if off % n + k < n {
        ModAdd(off, k, n);
      } else {
        ModTurn(off, k, n);
      }
    }
  }

  /** Within a block folding keeps distances. */
  lemma FoldChunk(pos: nat, j: nat, quantum: nat, qset: nat)
    requires quantum > 0 && qset > 0 && PosOf(pos, quantum, qset).at + j < quantum
    ensures Fold(pos + j, quantum, qset) == Fold(pos, quantum, qset) + j
  {
    hide PosOf;
    var f := Fold(pos, quantum, qset);
    FoldPos(pos, quantum, qset);
    PosWithin(f, quantum, qset);
    var p := PosOf(f, quantum, qset);
    OffsetBelow(p.(at := p.at + j), quantum, qset, TWO32);
    ModAdd(pos, j, Span(quantum, qset));
  }

  // ----- Shape

  /** `list` is the chain of items that starts at address `p`. */
  ghost predicate IsList(qsets: map<nat, QSet>, p: nat, list: seq<nat>)
    decreases |list|
  {
    if list == [] then p == 0
    else p == list[0] && p != 0 && p in qsets && IsList(qsets, qsets[p].next, list[1..])
  }

  /** The table of item `i`, and the block in slot `s` of it; 0 for none. */
  ghost function TableOf(v: Dev, list: seq<nat>, i: nat): nat {
    if i < |list| && list[i] in v.qsets then v.qsets[list[i]].data else 0
  }

  ghost function BlockOf(v: Dev, list: seq<nat>, i: nat, s: nat): nat {
    var t := TableOf(v, list, i);
    if t in v.tables && s < |v.tables[t]| then v.tables[t][s] else 0
  }

  /** Every live item is on the list, once. */
  ghost predicate ItemsOk(v: Dev, list: seq<nat>) {
    && IsList(v.qsets, v.data, list)
    && (forall i, j :: 0 <= i < j < |list| ==> list[i] != list[j])
    && (forall i :: 0 <= i < |list| ==> list[i] in v.qsets)
    && (forall a :: a in v.qsets ==> a in list && 0 < a < v.brk)
  }

  /** Every live table belongs to one item and has `qset` slots. */
  ghost predicate TablesOk(v: Dev, list: seq<nat>) {
    && (forall i :: 0 <= i < |list| && TableOf(v, list, i) != 0 ==> TableOf(v, list, i) in v.tables)
    && (forall i, j :: 0 <= i < j < |list| && TableOf(v, list, i) != 0 ==> TableOf(v, list, i) != TableOf(v, list, j))
    && (forall t :: t in v.tables ==> 0 < t < v.brk && |v.tables[t]| == v.qset)
    && (forall t :: t in v.tables ==> exists i :: 0 <= i < |list| && TableOf(v, list, i) == t)
  }

  ghost predicate SamePlace(i: nat, s: nat, j: nat, u: nat) {
    i == j && s == u
  }

  /** Every live block sits in one slot of one table and has `quantum` bytes. */
  ghost predicate BlocksOk(v: Dev, list: seq<nat>) {
    && (forall i: nat, s: nat :: BlockOf(v, list, i, s) != 0 ==> BlockOf(v, list, i, s) in v.blocks)
    && (forall i: nat, s: nat, j: nat, u: nat :: BlockOf(v, list, i, s) == BlockOf(v, list, j, u) != 0 ==>
       SamePlace(i, s, j, u))
    && (forall b :: b in v.blocks ==> 0 < b < v.brk && |v.blocks[b]| == v.quantum)
    && (forall b :: b in v.blocks ==> exists i: nat, s: nat :: BlockOf(v, list, i, s) == b)
  }

  ghost predicate Ok(v: Dev, list: seq<nat>) {
    && v.quantum > 0 && v.qset > 0 && v.brk > 0
    && |list| <= TWO32
    && ItemsOk(v, list) && TablesOk(v, list) && BlocksOk(v, list)
  }

  /** The list reaches as far as the size says. */
  ghost predicate Covered(v: Dev, list: seq<nat>) {
    v.size <= |list| * (v.quantum * v.qset)
  }

  // ----- The flat view

  datatype Cell = Hole | Byte(b: byte)

  /** What the device holds at offset `off`. */
  ghost function CellAt(v: Dev, list: seq<nat>, off: nat): Cell
    requires v.quantum > 0 && v.qset > 0
  {
    CellOf(v, list, PosOf(off, v.quantum, v.qset))
  }

  /** What a caller sees at offset `off`. */
  ghost function At(v: Dev, list: seq<nat>, off: nat): Cell
    requires v.quantum > 0 && v.qset > 0
  {
    CellAt(v, list, Fold(off, v.quantum, v.qset))
  }

  ghost function CellOf(v: Dev, list: seq<nat>, p: Pos): Cell {
    var b := BlockOf(v, list, p.item, p.slot);
    if b in v.blocks && p.at < |v.blocks[b]| then Byte(v.blocks[b][p.at]) else Hole
  }

  ghost predicate SameCells(v: Dev, list: seq<nat>, r: Dev, list': seq<nat>)
    requires v.quantum > 0 && v.qset > 0
  {
    && r.quantum == v.quantum && r.qset == v.qset
    && forall off: nat :: CellAt(r, list', off) == CellAt(v, list, off)
  }

  // ----- Allocation steps

  /** A new item behind the last one. */
  ghost function AddItem(v: Dev, list: seq<nat>): Dev {
    var a := v.brk;
    if list == [] then v.(data := a, qsets := v.qsets[a := QSet(0, 0)], brk := a + 1)
    else
      var last := list[|list| - 1];
      if last in v.qsets then v.(qsets := v.qsets[last := v.qsets[last].(next := a)][a := QSet(0, 0)], brk := a + 1)
      else v
  }

  lemma {:induction false} ListAppend(qsets: map<nat, QSet>, p: nat, list: seq<nat>, a: nat)
    requires IsList(qsets, p, list) && list != [] && a != 0 && a !in qsets
    requires forall i, j :: 0 <= i < j < |list| ==> list[i] != list[j]
    requires list[|list| - 1] in qsets
    ensures var last := list[|list| - 1];
            IsList(qsets[last := qsets[last].(next := a)][a := QSet(0, 0)], p, list + [a])
    decreases |list|
  {
    var last := list[|list| - 1];
    var q := qsets[last := qsets[last].(next := a)][a := QSet(0, 0)];
    assert (list + [a])[1..] == list[1..] + [a];
    if |list| == 1 {
      assert list[1..] + [a] == [a];
      assert [a][1..] == [];
    } else {
      ListAppend(qsets, qsets[p].next, list[1..], a);
      assert list[0] != last;
    }
  }

  lemma AddItemItems(v: Dev, list: seq<nat>)
    requires ItemsOk(v, list) && v.brk > 0
    ensures ItemsOk(AddItem(v, list), list + [v.brk])
  {
    var a := v.brk;
    var l := list + [a];
    if list == [] {
      assert l == [a] && l[1..] == [];
    } else {
      ListAppend(v.qsets, v.data, list, a);
    }
    assert forall x :: x in l <==> x in list || x == a;
  }

  lemma AddItemSame(v: Dev, list: seq<nat>, i: nat, s: nat)
    requires ItemsOk(v, list)
    ensures TableOf(AddItem(v, list), list + [v.brk], i) == TableOf(v, list, i)
    ensures BlockOf(AddItem(v, list), list + [v.brk], i, s) == BlockOf(v, list, i, s)
  {
  }

  /** The same tables, seen from a list that may be longer. */
  lemma TablesStay(v: Dev, list: seq<nat>, r: Dev, list': seq<nat>)
    requires TablesOk(v, list) && r.tables.Keys == v.tables.Keys && r.qset == v.qset && r.brk >= v.brk &&
             |list| <= |list'|
    requires forall t :: t in r.tables ==> |r.tables[t]| == r.qset
    requires forall i: nat :: TableOf(r, list', i) == TableOf(v, list, i)
    requires forall i: nat :: i >= |list| ==> TableOf(v, list, i) == 0
    ensures TablesOk(r, list')
  {
    hide TableOf;
    forall t | t in r.tables ensures exists i :: 0 <= i < |list'| && TableOf(r, list', i) == t {
      assert t in v.tables;
      var i :| 0 <= i < |list| && TableOf(v, list, i) == t;
      assert TableOf(r, list', i) == t;
    }
    forall i, j | 0 <= i < j < |list'| && TableOf(r, list', i) != 0
      ensures TableOf(r, list', i) != TableOf(r, list', j)
    {
      assert TableOf(r, list', i) == TableOf(v, list, i) && TableOf(r, list', j) == TableOf(v, list, j);
    }
    forall i | 0 <= i < |list'| && TableOf(r, list', i) != 0 ensures TableOf(r, list', i) in r.tables {
      assert TableOf(r, list', i) == TableOf(v, list, i);
    }
  }

  /** The blocks, and the bytes in them, are as before. */
  lemma BlocksStay(v: Dev, list: seq<nat>, r: Dev, list': seq<nat>)
    requires BlocksOk(v, list) && r.blocks == v.blocks && r.quantum == v.quantum && r.qset == v.qset && r.brk >= v.brk
    requires forall i: nat, s: nat :: BlockOf(r, list', i, s) == BlockOf(v, list, i, s)
    ensures BlocksOk(r, list')
    ensures v.quantum > 0 && v.qset > 0 ==> SameCells(v, list, r, list')
  {
    hide BlockOf;
    forall b | b in r.blocks ensures exists i: nat, s: nat :: BlockOf(r, list', i, s) == b {
      var i: nat, s: nat :| BlockOf(v, list, i, s) == b;
      assert BlockOf(r, list', i, s) == b;
    }
  }

  lemma AddItemOk(v: Dev, list: seq<nat>)
    requires Ok(v, list) && |list| < TWO32
    ensures Ok(AddItem(v, list), list + [v.brk]) && SameCells(v, list, AddItem(v, list), list + [v.brk])
  {
    hide ItemsOk; hide TablesOk; hide BlocksOk; hide CellAt; hide BlockOf; hide TableOf; hide SameCells;
    var r, l := AddItem(v, list), list + [v.brk];
    assert r.tables == v.tables && r.blocks == v.blocks && r.size == v.size && r.brk >= v.brk;
    assert r.quantum == v.quantum && r.qset == v.qset;
    AddItemItems(v, list);
    forall i: nat ensures TableOf(r, l, i) == TableOf(v, list, i) {
      AddItemSame(v, list, i, 0);
    }
    forall i: nat, s: nat ensures BlockOf(r, l, i, s) == BlockOf(v, list, i, s) {
      AddItemSame(v, list, i, s);
    }
    forall j: nat ensures j >= |list| ==> TableOf(v, list, j) == 0 {
      NoTable(v, list, j);
    }
    TableSizes(v, list);
    hide AddItem;
    TablesStay(v, list, r, l);
    BlocksStay(v, list, r, l);
  }

  /** A table of null slots for item `i`. */
  ghost function AddTable(v: Dev, list: seq<nat>, i: nat): Dev
    requires i < |list| && list[i] in v.qsets
  {
    var t := v.brk;
    v.(qsets := v.qsets[list[i] := v.qsets[list[i]].(data := t)],
       tables := v.tables[t := seq(v.qset, _ => 0)], brk := t + 1)
  }

  lemma {:induction false} ListData(qsets: map<nat, QSet>, p: nat, list: seq<nat>, a: nat, t: nat)
    requires IsList(qsets, p, list) && a in qsets
    ensures IsList(qsets[a := qsets[a].(data := t)], p, list)
    decreases |list|
  {
    if list != [] {
      ListData(qsets, qsets[p].next, list[1..], a, t);
    }
  }

  lemma AddTableSame(v: Dev, list: seq<nat>, i: nat, j: nat, s: nat)
    requires ItemsOk(v, list) && TablesOk(v, list) && i < |list| && TableOf(v, list, i) == 0
    ensures var r := AddTable(v, list, i);
            && TableOf(r, list, j) == (if j == i then v.brk else TableOf(v, list, j))
            && BlockOf(r, list, j, s) == BlockOf(v, list, j, s)
  {
  }

  /** One more table, of an item that had none. */
  lemma TablesGrow(v: Dev, list: seq<nat>, r: Dev, i: nat)
    requires TablesOk(v, list) && i < |list| && TableOf(v, list, i) == 0
    requires r.qset == v.qset && r.brk == v.brk + 1 && v.brk > 0
    requires forall t :: t in r.tables <==> t in v.tables || t == v.brk
    requires forall t :: t in r.tables ==> |r.tables[t]| == r.qset
    requires forall j: nat :: TableOf(r, list, j) == if j == i then v.brk else TableOf(v, list, j)
    ensures TablesOk(r, list)
  {
    hide TableOf;
    forall t | t in r.tables ensures exists j :: 0 <= j < |list| && TableOf(r, list, j) == t {
      if t == v.brk {
        assert TableOf(r, list, i) == t;
      } else {
        var j :| 0 <= j < |list| && TableOf(v, list, j) == t;
        assert TableOf(r, list, j) == t;
      }
    }
  }

  lemma AddTableTables(v: Dev, list: seq<nat>, i: nat)
    requires ItemsOk(v, list) && TablesOk(v, list) && i < |list| && TableOf(v, list, i) == 0 && v.brk > 0
    ensures TablesOk(AddTable(v, list, i), list)
  {
    var r := AddTable(v, list, i);
    hide TableOf; hide IsList;
    forall j: nat ensures TableOf(r, list, j) == if j == i then v.brk else TableOf(v, list, j) {
      AddTableSame(v, list, i, j, 0);
    }
    TablesGrow(v, list, r, i);
  }

  lemma AddTableOk(v: Dev, list: seq<nat>, i: nat)
    requires Ok(v, list) && i < |list| && TableOf(v, list, i) == 0
    ensures Ok(AddTable(v, list, i), list) && TableOf(AddTable(v, list, i), list, i) == v.brk
    ensures SameCells(v, list, AddTable(v, list, i), list)
  {
    var r := AddTable(v, list, i);
    AddTableTables(v, list, i);
    forall j: nat, s: nat ensures BlockOf(r, list, j, s) == BlockOf(v, list, j, s) {
      AddTableSame(v, list, i, j, s);
    }
    AddTableSame(v, list, i, i, 0);
    ListData(v.qsets, v.data, list, list[i], v.brk);
    hide BlockOf; hide TableOf; hide CellAt; hide SameCells; hide TablesOk; hide IsList;
    BlocksStay(v, list, r, list);
  }

  /** An uninitialised block in slot `s` of item `i`. */
  ghost function AddBlock(v: Dev, list: seq<nat>, i: nat, s: nat, junk: seq<byte>): Dev
    requires TableOf(v, list, i) in v.tables && s < |v.tables[TableOf(v, list, i)]|
  {
    var t, b: nat := TableOf(v, list, i), v.brk;
    var row: seq<nat> := v.tables[t][s := b];
    v.(tables := v.tables[t := row], blocks := v.blocks[b := junk], brk := b + 1)
  }

  lemma AddBlockSame(v: Dev, list: seq<nat>, i: nat, s: nat, junk: seq<byte>, j: nat, u: nat)
    requires TablesOk(v, list) && i < |list| && TableOf(v, list, i) != 0 && s < v.qset
    ensures var r := AddBlock(v, list, i, s, junk);
            && TableOf(r, list, j) == TableOf(v, list, j)
            && BlockOf(r, list, j, u) == if j == i && u == s then v.brk else BlockOf(v, list, j, u)
  {
  }

  /** One more block, in a slot that had none. */
  lemma BlocksGrow(v: Dev, list: seq<nat>, r: Dev, i: nat, s: nat)
    requires BlocksOk(v, list) && BlockOf(v, list, i, s) == 0 && r.quantum == v.quantum && r.brk == v.brk + 1 &&
             v.brk > 0
    requires forall b :: b in r.blocks <==> b in v.blocks || b == v.brk
    requires forall b :: b in r.blocks ==> |r.blocks[b]| == r.quantum
    requires forall j: nat, u: nat :: BlockOf(r, list, j, u) == if j == i && u == s then v.brk
             else BlockOf(v, list, j, u)
    ensures BlocksOk(r, list)
  {
    hide BlockOf;
    forall b | b in r.blocks ensures exists j: nat, u: nat :: BlockOf(r, list, j, u) == b {
      if b == v.brk {
        assert BlockOf(r, list, i, s) == b;
      } else {
        var j: nat, u: nat :| BlockOf(v, list, j, u) == b;
        assert BlockOf(r, list, j, u) == b;
      }
    }
  }

  lemma AddBlockBlocks(v: Dev, list: seq<nat>, i: nat, s: nat, junk: seq<byte>)
    requires TablesOk(v, list) && BlocksOk(v, list) && v.brk > 0
    requires i < |list| && TableOf(v, list, i) != 0 && s < v.qset && BlockOf(v, list, i, s) == 0 && |junk| == v.quantum
    ensures BlocksOk(AddBlock(v, list, i, s, junk), list)
  {
    hide BlockOf; hide TableOf;
    var r := AddBlock(v, list, i, s, junk);
    forall j: nat, u: nat ensures BlockOf(r, list, j, u) == if j == i && u == s then v.brk else BlockOf(v, list, j, u) {
      AddBlockSame(v, list, i, s, junk, j, u);
    }
    assert forall b :: b in r.blocks ==> |r.blocks[b]| == v.quantum;
    hide BlocksOk;
    BlocksGrow(v, list, r, i, s);
  }

  lemma AddBlockItems(v: Dev, list: seq<nat>, i: nat, s: nat, junk: seq<byte>)
    requires ItemsOk(v, list) && TablesOk(v, list) && i < |list| && TableOf(v, list, i) != 0 && s < v.qset
    ensures ItemsOk(AddBlock(v, list, i, s, junk), list)
  {
  }

  lemma NoTable(v: Dev, list: seq<nat>, j: nat)
    ensures j >= |list| ==> TableOf(v, list, j) == 0
  {
  }

  lemma AddBlockOk(v: Dev, list: seq<nat>, i: nat, s: nat, junk: seq<byte>)
    requires Ok(v, list) && i < |list| && TableOf(v, list, i) != 0 && s < v.qset && BlockOf(v, list, i, s) == 0
    requires |junk| == v.quantum
    ensures var r := AddBlock(v, list, i, s, junk);
            Ok(r, list) && BlockOf(r, list, i, s) == v.brk && TableOf(r, list, i) == TableOf(v, list, i)
  {
    hide BlocksOk; hide BlockOf; hide IsList; hide TableOf; hide ItemsOk;
    var r := AddBlock(v, list, i, s, junk);
    assert ItemsOk(r, list) by { AddBlockItems(v, list, i, s, junk); }
    AddBlockBlocks(v, list, i, s, junk);
    forall j: nat ensures TableOf(r, list, j) == TableOf(v, list, j) {
      AddBlockSame(v, list, i, s, junk, j, s);
    }
    AddBlockSame(v, list, i, s, junk, i, s);
    forall j: nat ensures j >= |list| ==> TableOf(v, list, j) == 0 {
      NoTable(v, list, j);
    }
    TablesStay(v, list, r, list);
  }

  /** Only the holes of that block change: they now hold whatever the allocation held. */
  lemma AddBlockCells(v: Dev, list: seq<nat>, i: nat, s: nat, junk: seq<byte>, off: nat)
    requires Ok(v, list) && i < |list| && TableOf(v, list, i) != 0 && s < v.qset && BlockOf(v, list, i, s) == 0
    requires |junk| == v.quantum
    ensures var r := AddBlock(v, list, i, s, junk);
            var p := PosOf(off, v.quantum, v.qset);
            if p.item == i && p.slot == s then CellAt(v, list, off) == Hole && p.at < |junk| &&
                CellAt(r, list, off) == Byte(junk[p.at])
            else CellAt(r, list, off) == CellAt(v, list, off)
  {
    var p := PosOf(off, v.quantum, v.qset);
    PosWithin(off, v.quantum, v.qset);
    AddBlockSame(v, list, i, s, junk, p.item, p.slot);
  }

  // ----- Copying into a block

  /** `bytes` stored at `at` in block `b`. */
  ghost function CopyIn(v: Dev, b: nat, at: nat, bytes: seq<byte>): Dev
    requires b in v.blocks && at + |bytes| <= |v.blocks[b]|
  {
    var row: seq<byte> := v.blocks[b];
    v.(blocks := v.blocks[b := row[..at] + bytes + row[at + |bytes|..]])
  }

  /** The same blocks in the same slots, whatever is in them. */
  lemma BlocksKept(v: Dev, list: seq<nat>, r: Dev)
    requires BlocksOk(v, list) && r.quantum == v.quantum && r.brk >= v.brk
    requires forall b :: b in r.blocks <==> b in v.blocks
    requires forall b :: b in r.blocks ==> |r.blocks[b]| == r.quantum
    requires forall i: nat, s: nat :: BlockOf(r, list, i, s) == BlockOf(v, list, i, s)
    ensures BlocksOk(r, list)
  {
    hide BlockOf;
    forall b | b in r.blocks ensures exists i: nat, s: nat :: BlockOf(r, list, i, s) == b {
      var i: nat, s: nat :| BlockOf(v, list, i, s) == b;
      assert BlockOf(r, list, i, s) == b;
    }
  }

  lemma CopyInSame(v: Dev, list: seq<nat>, b: nat, at: nat, bytes: seq<byte>, i: nat, s: nat)
    requires b in v.blocks && at + |bytes| <= |v.blocks[b]|
    ensures var r := CopyIn(v, b, at, bytes);
            TableOf(r, list, i) == TableOf(v, list, i) && BlockOf(r, list, i, s) == BlockOf(v, list, i, s)
  {
  }

  lemma CopyInOk(v: Dev, list: seq<nat>, b: nat, at: nat, bytes: seq<byte>)
    requires Ok(v, list) && b in v.blocks && at + |bytes| <= |v.blocks[b]|
    ensures Ok(CopyIn(v, b, at, bytes), list)
  {
    hide BlockOf; hide TableOf; hide IsList; hide ItemsOk;
    var r := CopyIn(v, b, at, bytes);
    forall i: nat, s: nat ensures BlockOf(r, list, i, s) == BlockOf(v, list, i, s) {
      CopyInSame(v, list, b, at, bytes, i, s);
    }
    forall i: nat ensures TableOf(r, list, i) == TableOf(v, list, i) {
      CopyInSame(v, list, b, at, bytes, i, 0);
    }
    assert forall c :: c in r.blocks ==> |r.blocks[c]| == v.quantum;
    assert r.tables == v.tables && forall t :: t in v.tables ==> |v.tables[t]| == v.qset;
    hide BlocksOk; hide TablesOk; hide CopyIn;
    ItemsSame(v, list, r);
    forall j: nat ensures j >= |list| ==> TableOf(v, list, j) == 0 {
      NoTable(v, list, j);
    }
    TablesStay(v, list, r, list);
    BlocksKept(v, list, r);
  }

  lemma ItemsSame(v: Dev, list: seq<nat>, r: Dev)
    requires ItemsOk(v, list) && r.qsets == v.qsets && r.data == v.data && r.brk == v.brk
    ensures ItemsOk(r, list)
  {
  }

  /** Offsets in one block differ as their positions in it do. */
  lemma SameBlockOffsets(off: nat, pos: nat, quantum: nat, qset: nat)
    requires quantum > 0 && qset > 0
    ensures SameBlock(off, pos, quantum, qset) ==>
              off - pos == PosOf(off, quantum, qset).at - PosOf(pos, quantum, qset).at
    ensures pos <= off < pos + quantum - PosOf(pos, quantum, qset).at ==> SameBlock(off, pos, quantum, qset)
  {
    PosWithin(off, quantum, qset);
    PosWithin(pos, quantum, qset);
    var p := PosOf(pos, quantum, qset);
    if pos <= off < pos + quantum - p.at {
      PosInverse(Pos(p.item, p.slot, p.at + off - pos), quantum, qset);
    }
  }

  predicate SameBlock(off: nat, pos: nat, quantum: nat, qset: nat)
    requires quantum > 0 && qset > 0
  {
    var p, o := PosOf(pos, quantum, qset), PosOf(off, quantum, qset);
    o.item == p.item && o.slot == p.slot
  }

  /** The bytes from `pos` on become `bytes`; nothing else changes, except that the holes of the block
      at `pos` may be filled with whatever its memory held. */
  ghost predicate WroteAt(v: Dev, list: seq<nat>, r: Dev, list': seq<nat>, pos: nat, bytes: seq<byte>, off: nat)
    requires v.quantum > 0 && v.qset > 0 && r.quantum == v.quantum && r.qset == v.qset
  {
    if pos <= off < pos + |bytes| then CellAt(r, list', off) == Byte(bytes[off - pos])
    else if CellAt(v, list, off) == Hole && SameBlock(off, pos, v.quantum, v.qset) then CellAt(r, list', off) != Hole
    else CellAt(r, list', off) == CellAt(v, list, off)
  }

  ghost predicate Wrote(v: Dev, list: seq<nat>, r: Dev, list': seq<nat>, pos: nat, bytes: seq<byte>)
    requires v.quantum > 0 && v.qset > 0
  {
    && r.quantum == v.quantum && r.qset == v.qset
    && forall off: nat :: WroteAt(v, list, r, list', pos, bytes, off)
  }

  lemma BlockUnique(v: Dev, list: seq<nat>, p: Pos, o: Pos)
    requires Ok(v, list) && BlockOf(v, list, p.item, p.slot) in v.blocks
    ensures BlockOf(v, list, o.item, o.slot) == BlockOf(v, list, p.item, p.slot) <==>
              o.item == p.item && o.slot == p.slot
    ensures |v.blocks[BlockOf(v, list, p.item, p.slot)]| == v.quantum
  {
    hide BlockOf; hide TablesOk; hide ItemsOk;
    assert BlockOf(v, list, p.item, p.slot) != 0;
    if BlockOf(v, list, o.item, o.slot) == BlockOf(v, list, p.item, p.slot) {
      assert SamePlace(o.item, o.slot, p.item, p.slot);
    }
  }

  lemma CopyInCell(v: Dev, list: seq<nat>, b: nat, p: Pos, bytes: seq<byte>, o: Pos)
    requires b in v.blocks && |v.blocks[b]| == v.quantum && p.at + |bytes| <= v.quantum && o.at < v.quantum
    ensures CellOf(CopyIn(v, b, p.at, bytes), list, o) ==
              if BlockOf(v, list, o.item, o.slot) == b && p.at <= o.at < p.at + |bytes| then Byte(bytes[o.at - p.at])
              else CellOf(v, list, o)
    ensures BlockOf(v, list, o.item, o.slot) == b ==> CellOf(v, list, o) != Hole
  {
    CopyInSame(v, list, b, p.at, bytes, o.item, o.slot);
    hide BlockOf;
    Spliced(v.blocks[b], p.at, bytes, o.at);
  }

  lemma Spliced(row: seq<byte>, at: nat, bytes: seq<byte>, k: nat)
    requires at + |bytes| <= |row| && k < |row|
    ensures var r := row[..at] + bytes + row[at + |bytes|..];
            |r| == |row| && r[k] == if at <= k < at + |bytes| then bytes[k - at] else row[k]
  {
  }

  lemma CopyInWrote(v: Dev, list: seq<nat>, b: nat, pos: nat, bytes: seq<byte>)
    requires Ok(v, list) && b in v.blocks && |v.blocks[b]| == v.quantum
    requires var p := PosOf(pos, v.quantum, v.qset);
             b == BlockOf(v, list, p.item, p.slot) && p.at + |bytes| <= v.quantum
    ensures Wrote(v, list, CopyIn(v, b, PosOf(pos, v.quantum, v.qset).at, bytes), list, pos, bytes)
  {
    hide PosOf; hide BlockOf; hide CellOf; hide ItemsOk; hide TablesOk; hide BlocksOk;
    var r := CopyIn(v, b, PosOf(pos, v.quantum, v.qset).at, bytes);
    forall off: nat ensures WroteAt(v, list, r, list, pos, bytes, off) {
      PosWithin(off, v.quantum, v.qset);
      SameBlockOffsets(off, pos, v.quantum, v.qset);
      BlockUnique(v, list, PosOf(pos, v.quantum, v.qset), PosOf(off, v.quantum, v.qset));
      CopyInCell(v, list, b, PosOf(pos, v.quantum, v.qset), bytes, PosOf(off, v.quantum, v.qset));
    }
  }

  // ----- The list

  lemma {:induction false} ListAt(qsets: map<nat, QSet>, p: nat, list: seq<nat>, i: nat)
    requires IsList(qsets, p, list) && i < |list|
    ensures list[i] != 0 && list[i] in qsets && p == list[0]
    ensures qsets[list[i]].next == if i + 1 < |list| then list[i + 1] else 0
    decreases i
  {
    if i > 0 {
      ListAt(qsets, qsets[p].next, list[1..], i - 1);
    } else if |list| > 1 {
      assert IsList(qsets, qsets[p].next, list[1..]);
    }
  }

  /** How many allocations a write at `p` needs. */
  ghost function Needed(v: Dev, list: seq<nat>, p: Pos): nat {
    (if p.item < |list| then 0 else p.item + 1 - |list|) + SlotNeeds(v, list, p.item, p.slot)
  }

  const ENOMEM := 12
  const EFAULT := 14

  function Min(a: int, b: int): int { if a < b then a else b }

  function Max(a: int, b: int): int { if a < b then b else a }

  ghost predicate InSlot(pos: nat, quantum: nat, qset: nat, i: nat, s: nat) {
    quantum > 0 && qset > 0 && PosOf(pos, quantum, qset).item == i && PosOf(pos, quantum, qset).slot == s
  }

  ghost function SlotNeeds(v: Dev, list: seq<nat>, i: nat, s: nat): nat {
    (if TableOf(v, list, i) == 0 then 1 else 0) + (if BlockOf(v, list, i, s) == 0 then 1 else 0)
  }

  lemma TableAt(v: Dev, list: seq<nat>, i: nat)
    requires Ok(v, list) && i < |list|
    ensures list[i] in v.qsets && TableOf(v, list, i) == v.qsets[list[i]].data
    ensures TableOf(v, list, i) != 0 ==> TableOf(v, list, i) in v.tables
  {
    hide IsList; hide BlocksOk;
  }

  lemma NoBlock(v: Dev, list: seq<nat>, i: nat, s: nat)
    requires Ok(v, list) && TableOf(v, list, i) == 0
    ensures BlockOf(v, list, i, s) == 0
  {
    hide ItemsOk; hide BlocksOk;
  }

  lemma NewTableEmpty(v: Dev, list: seq<nat>, i: nat, s: nat)
    requires Ok(v, list) && i < |list| && TableOf(v, list, i) == 0
    ensures list[i] in v.qsets && BlockOf(AddTable(v, list, i), list, i, s) == 0
  {
    hide BlocksOk;
    AddTableSame(v, list, i, i, s);
  }

  lemma SlotAt(v: Dev, list: seq<nat>, i: nat, s: nat)
    requires Ok(v, list) && i < |list| && TableOf(v, list, i) != 0 && s < v.qset
    ensures TableOf(v, list, i) in v.tables && |v.tables[TableOf(v, list, i)]| == v.qset
    ensures BlockOf(v, list, i, s) == v.tables[TableOf(v, list, i)][s]
  {
    hide BlocksOk; hide ItemsOk; hide TableOf;
  }

  lemma BlockLive(v: Dev, list: seq<nat>, i: nat, s: nat)
    requires Ok(v, list)
    ensures BlockOf(v, list, i, s) != 0 ==>
              BlockOf(v, list, i, s) in v.blocks && |v.blocks[BlockOf(v, list, i, s)]| == v.quantum
  {
    hide BlockOf; hide ItemsOk; hide TablesOk;
  }

  lemma AddBlockWrote(v: Dev, list: seq<nat>, i: nat, s: nat, junk: seq<byte>, pos: nat)
    requires Ok(v, list) && i < |list| && TableOf(v, list, i) != 0 && s < v.qset && BlockOf(v, list, i, s) == 0
    requires |junk| == v.quantum && InSlot(pos, v.quantum, v.qset, i, s)
    ensures TableOf(v, list, i) in v.tables && s < |v.tables[TableOf(v, list, i)]|
    ensures Wrote(v, list, AddBlock(v, list, i, s, junk), list, pos, [])
  {
    var r := AddBlock(v, list, i, s, junk);
    hide PosOf; hide TableOf; hide BlockOf; hide ItemsOk; hide BlocksOk; hide CellAt;
    forall off: nat ensures WroteAt(v, list, r, list, pos, [], off) {
      AddBlockCells(v, list, i, s, junk, off);
    }
  }

  lemma NothingWrote(v: Dev, list: seq<nat>, pos: nat, i: nat, s: nat)
    requires Ok(v, list) && InSlot(pos, v.quantum, v.qset, i, s) && BlockOf(v, list, i, s) != 0
    ensures Wrote(v, list, v, list, pos, [])
  {
    BlockLive(v, list, i, s);
    hide PosOf; hide BlockOf; hide ItemsOk; hide BlocksOk; hide TablesOk;
    forall off: nat ensures WroteAt(v, list, v, list, pos, [], off) {
      PosWithin(off, v.quantum, v.qset);
    }
  }

  lemma SameThenWrote(v: Dev, list: seq<nat>, r: Dev, list': seq<nat>, w: Dev, list'': seq<nat>, pos: nat,
      bytes: seq<byte>)
    requires v.quantum > 0 && v.qset > 0 && SameCells(v, list, r, list') && Wrote(r, list', w, list'', pos, bytes)
    ensures Wrote(v, list, w, list'', pos, bytes)
  {
    hide CellAt; hide SameBlock;
    forall off: nat ensures WroteAt(v, list, w, list'', pos, bytes, off) {
      assert WroteAt(r, list', w, list'', pos, bytes, off);
    }
  }

  /** Filling the holes of a block and then writing into it is one write. */
  lemma WroteTwice(v: Dev, list: seq<nat>, r: Dev, list': seq<nat>, w: Dev, list'': seq<nat>, pos: nat,
      bytes: seq<byte>)
    requires v.quantum > 0 && v.qset > 0 && Wrote(v, list, r, list', pos, []) && Wrote(r, list', w, list'', pos, bytes)
    ensures Wrote(v, list, w, list'', pos, bytes)
  {
    hide CellAt; hide SameBlock;
    forall off: nat ensures WroteAt(v, list, w, list'', pos, bytes, off) {
      assert WroteAt(v, list, r, list', pos, [], off) && WroteAt(r, list', w, list'', pos, bytes, off);
    }
  }

  lemma Empty(v: Dev, list: seq<nat>)
    requires ItemsOk(v, list) && v.data == 0
    ensures list == []
  {
  }

  lemma NotEmpty(v: Dev, list: seq<nat>)
    requires ItemsOk(v, list) && v.data != 0
    ensures list != [] && list[0] == v.data
  {
  }

  lemma Linked(v: Dev, list: seq<nat>, i: nat)
    requires ItemsOk(v, list) && i < |list|
    ensures list[i] != 0 && list[i] in v.qsets && v.qsets[list[i]].next == if i + 1 < |list| then list[i + 1] else 0
    ensures v.qsets[list[i]].next == 0 <==> i + 1 == |list|
  {
    ListAt(v.qsets, v.data, list, i);
    if i + 1 < |list| {
      ListAt(v.qsets, v.data, list, i + 1);
    }
  }

  /** A new last item keeps the shape, the cells and the tables. */
  lemma Grow(v: Dev, list: seq<nat>)
    requires Ok(v, list) && |list| < TWO32
    ensures Ok(AddItem(v, list), list + [v.brk]) && SameCells(v, list, AddItem(v, list), list + [v.brk])
    ensures forall i: nat :: TableOf(AddItem(v, list), list + [v.brk], i) == TableOf(v, list, i)
    ensures list != [] ==> list[|list| - 1] in v.qsets && list[|list| - 1] != 0
  {
    AddItemOk(v, list);
    forall i: nat ensures TableOf(AddItem(v, list), list + [v.brk], i) == TableOf(v, list, i) {
      AddItemSame(v, list, i, 0);
    }
  }

  /** How many bytes one call moves: up to the end of the block. */
  function Chunk(count: nat, pos: nat, quantum: nat, qset: nat): nat
    requires quantum > 0 && qset > 0
  {
    var left := quantum - PosOf(pos, quantum, qset).at;
    assert left > 0 by { PosWithin(pos, quantum, qset); }
    if count > left then left else count
  }

  /** A chunk ends within the items that reach its first byte. */
  lemma ChunkReach(count: nat, pos: nat, quantum: nat, qset: nat, n: nat)
    requires quantum > 0 && qset > 0 && PosOf(pos, quantum, qset).item < n
    ensures pos + Chunk(count, pos, quantum, qset) <= n * (quantum * qset)
  {
    var p := PosOf(pos, quantum, qset);
    PosWithin(pos, quantum, qset);
    Scale(p.slot, qset - 1, quantum);
    assert (qset - 1) * quantum == quantum * qset - quantum;
    Scale(p.item, n - 1, quantum * qset);
    assert (n - 1) * (quantum * qset) == n * (quantum * qset) - quantum * qset;
  }

  lemma SizeOnly(v: Dev, list: seq<nat>, size: nat)
    requires Ok(v, list)
    ensures Ok(v.(size := size), list) && SameCells(v, list, v.(size := size), list)
  {
    var r := v.(size := size);
    forall i: nat ensures TableOf(r, list, i) == TableOf(v, list, i) {
    }
    forall j: nat ensures j >= |list| ==> TableOf(v, list, j) == 0 {
      NoTable(v, list, j);
    }
    forall i: nat, s: nat ensures BlockOf(r, list, i, s) == BlockOf(v, list, i, s) {
    }
    hide BlockOf; hide TableOf; hide ItemsOk; hide TablesOk; hide BlocksOk;
    ItemsSame(v, list, r);
    assert forall t :: t in v.tables ==> |v.tables[t]| == v.qset by { TableSizes(v, list); }
    TablesStay(v, list, r, list);
    BlocksStay(v, list, r, list);
  }

  lemma TableSizes(v: Dev, list: seq<nat>)
    requires TablesOk(v, list)
    ensures forall t :: t in v.tables ==> |v.tables[t]| == v.qset
  {
  }

  lemma WroteThenSame(v: Dev, list: seq<nat>, r: Dev, list': seq<nat>, w: Dev, list'': seq<nat>, pos: nat,
      bytes: seq<byte>)
    requires v.quantum > 0 && v.qset > 0 && Wrote(v, list, r, list', pos, bytes) && SameCells(r, list', w, list'')
    ensures Wrote(v, list, w, list'', pos, bytes)
  {
    hide CellAt; hide SameBlock;
    forall off: nat ensures WroteAt(v, list, w, list'', pos, bytes, off) {
      assert WroteAt(v, list, r, list', pos, bytes, off);
    }
  }

  /** The slot as the walk left it needs what it needed before. */
  lemma SlotNeedsSame(v: Dev, list: seq<nat>, r: Dev, list': seq<nat>, i: nat, s: nat)
    requires r.tables == v.tables && TableOf(r, list', i) == TableOf(v, list, i)
    ensures SlotNeeds(r, list', i, s) == SlotNeeds(v, list, i, s)
  {
  }

  lemma ChunkWithin(count: nat, pos: nat, quantum: nat, qset: nat)
    requires quantum > 0 && qset > 0
    ensures Chunk(count, pos, quantum, qset) <= count
    ensures PosOf(pos, quantum, qset).at + Chunk(count, pos, quantum, qset) <= quantum
    ensures Chunk(count, pos, quantum, qset) == 0 <==> count == 0
    ensures ToTheEnd(count, pos, quantum, Chunk(count, pos, quantum, qset))
  {
    PosWithin(pos, quantum, qset);
    AtIs(pos, quantum, qset);
    hide PosOf;
    var n := Chunk(count, pos, quantum, qset);
    if n != count {
      ModEnd(pos, n, quantum);
    }
  }

  /** `n` of `count` bytes from `pos` on: all of them, or as many as reach the next multiple of `quantum`. */
  predicate ToTheEnd(count: nat, pos: nat, quantum: nat, n: nat)
    requires quantum > 0
  {
    n <= count && pos % quantum + n <= quantum && (n == count || (pos + n) % quantum == 0) && (count > 0 ==> n > 0)
  }

  lemma AtIs(pos: nat, quantum: nat, qset: nat)
    requires quantum > 0 && qset > 0
    ensures PosOf(pos, quantum, qset).at == pos % quantum
  {
    PosWithin(pos, quantum, qset);
    var p := PosOf(pos, quantum, qset);
    hide PosOf;
    assert pos == (p.item * qset + p.slot) * quantum + p.at by {
      assert p.item * (quantum * qset) == p.item * qset * quantum;
    }
    assert p.item * qset >= 0;
    DivUnique(pos, p.item * qset + p.slot, p.at, quantum);
  }

  lemma ModEnd(x: nat, n: nat, q: nat)
    requires q > 0 && x % q + n == q
    ensures (x + n) % q == 0
  {
    ModTurn(x, n, q);
  }

  /** An offset below the size lies in an item of the list. */
  lemma Reached(pos: nat, size: nat, quantum: nat, qset: nat, n: nat)
    requires quantum > 0 && qset > 0 && pos < size <= n * (quantum * qset)
    ensures PosOf(pos, quantum, qset).item < n
  {
    var p := PosOf(pos, quantum, qset);
    PosWithin(pos, quantum, qset);
    hide PosOf;
    if p.item >= n {
      Scale(n, p.item, quantum * qset);
    }
  }

  lemma HoleIff(v: Dev, list: seq<nat>, p: Pos)
    requires Ok(v, list) && p.at < v.quantum
    ensures CellOf(v, list, p) == Hole <==> BlockOf(v, list, p.item, p.slot) == 0
  {
    BlockLive(v, list, p.item, p.slot);
    hide BlockOf; hide ItemsOk; hide TablesOk;
  }

  lemma CellInBlock(v: Dev, list: seq<nat>, b: nat, pos: nat, k: nat)
    requires v.quantum > 0 && v.qset > 0 && b in v.blocks
    requires var p := PosOf(pos, v.quantum, v.qset);
             b == BlockOf(v, list, p.item, p.slot) && p.at + k < v.quantum == |v.blocks[b]|
    ensures CellAt(v, list, pos + k) == Byte(v.blocks[b][PosOf(pos, v.quantum, v.qset).at + k])
  {
    hide PosOf; hide BlockOf;
    SameBlockOffsets(pos + k, pos, v.quantum, v.qset);
  }

  // ----- Freeing

  ghost predicate ItemsFrom(v: Dev, list: seq<nat>, i: nat, qsets: map<nat, QSet>) {
    && (forall a :: a in qsets ==> exists j :: i <= j < |list| && list[j] == a)
    && (forall j :: i <= j < |list| ==> list[j] in qsets && list[j] in v.qsets && qsets[list[j]] == v.qsets[list[j]])
  }

  ghost predicate TablesFrom(v: Dev, list: seq<nat>, i: nat, tables: map<nat, seq<nat>>) {
    && (forall t :: t in tables ==> t in v.tables && tables[t] == v.tables[t])
    && (forall t :: t in tables ==> exists j :: i <= j < |list| && TableOf(v, list, j) == t)
    && (forall j :: i <= j < |list| && TableOf(v, list, j) != 0 ==> TableOf(v, list, j) in tables)
  }

  ghost predicate Later(i: nat, s: nat, j: nat, u: nat) {
    j > i || (j == i && u >= s)
  }

  /** The live blocks are those of the slots from `(i, s)` on. */
  ghost predicate BlocksFrom(v: Dev, list: seq<nat>, i: nat, s: nat, blocks: map<nat, seq<byte>>) {
    && (forall b :: b in blocks ==> b != 0 && exists j: nat, u: nat :: Later(i, s, j, u) && BlockOf(v, list, j, u) == b)
    && (forall j: nat, u: nat :: Later(i, s, j, u) && BlockOf(v, list, j, u) != 0 ==> BlockOf(v, list, j, u) in blocks)
  }

  lemma FromStart(v: Dev, list: seq<nat>)
    requires Ok(v, list)
    ensures ItemsFrom(v, list, 0, v.qsets) && TablesFrom(v, list, 0, v.tables) && BlocksFrom(v, list, 0, 0, v.blocks)
  {
    hide IsList; hide TableOf; hide BlockOf;
    forall b | b in v.blocks ensures exists j: nat, u: nat :: Later(0, 0, j, u) && BlockOf(v, list, j, u) == b {
      var j: nat, u: nat :| BlockOf(v, list, j, u) == b;
      assert Later(0, 0, j, u);
    }
  }

  lemma BlockFreed(v: Dev, list: seq<nat>, i: nat, s: nat, blocks: map<nat, seq<byte>>)
    requires BlocksOk(v, list) && BlocksFrom(v, list, i, s, blocks)
    ensures var b := BlockOf(v, list, i, s);
            (b == 0 || b in blocks) && BlocksFrom(v, list, i, s + 1, blocks - {b})
  {
    hide BlockOf;
    var b := BlockOf(v, list, i, s);
    assert Later(i, s, i, s);
    var left := blocks - {b};
    forall c | c in left ensures exists j: nat, u: nat :: Later(i, s + 1, j, u) && BlockOf(v, list, j, u) == c {
      var j: nat, u: nat :| Later(i, s, j, u) && BlockOf(v, list, j, u) == c;
      assert Later(i, s + 1, j, u);
    }
    forall j: nat, u: nat | Later(i, s + 1, j, u) &&
        BlockOf(v, list, j, u) != 0 ensures BlockOf(v, list, j, u) in left {
      assert Later(i, s, j, u);
      assert !SamePlace(j, u, i, s);
    }
  }

  /** Past the last slot, and without a table, there are no blocks. */
  lemma RowDone(v: Dev, list: seq<nat>, i: nat, s: nat, blocks: map<nat, seq<byte>>)
    requires BlocksFrom(v, list, i, s, blocks) && forall u: nat :: u >= s ==> BlockOf(v, list, i, u) == 0
    ensures BlocksFrom(v, list, i + 1, 0, blocks)
  {
    hide BlockOf;
    forall c | c in blocks ensures exists j: nat, u: nat :: Later(i + 1, 0, j, u) && BlockOf(v, list, j, u) == c {
      var j: nat, u: nat :| Later(i, s, j, u) && BlockOf(v, list, j, u) == c;
      assert Later(i + 1, 0, j, u);
    }
    forall j: nat, u: nat | Later(i + 1, 0, j, u) &&
        BlockOf(v, list, j, u) != 0 ensures BlockOf(v, list, j, u) in blocks {
      assert Later(i, s, j, u);
    }
  }

  lemma NoSlots(v: Dev, list: seq<nat>, i: nat, s: nat)
    requires Ok(v, list) && (TableOf(v, list, i) == 0 || s >= v.qset)
    ensures forall u: nat :: u >= s ==> BlockOf(v, list, i, u) == 0
  {
    hide ItemsOk; hide BlocksOk;
  }

  lemma TableFreed(v: Dev, list: seq<nat>, i: nat, tables: map<nat, seq<nat>>)
    requires TablesOk(v, list) && TablesFrom(v, list, i, tables) && i < |list|
    ensures var t := TableOf(v, list, i);
            (t != 0 ==> t in tables && tables[t] == v.tables[t]) && TablesFrom(v, list, i + 1, tables - {t})
  {
    hide TableOf;
    var t := TableOf(v, list, i);
    var left := tables - {t};
    forall c | c in left ensures exists j :: i + 1 <= j < |list| && TableOf(v, list, j) == c {
      var j :| i <= j < |list| && TableOf(v, list, j) == c;
    }
  }

  lemma ItemFreed(v: Dev, list: seq<nat>, i: nat, qsets: map<nat, QSet>, q: QSet)
    requires ItemsOk(v, list) && ItemsFrom(v, list, i, qsets) && i < |list|
    ensures list[i] in qsets && qsets[list[i]] == v.qsets[list[i]]
    ensures ItemsFrom(v, list, i + 1, qsets[list[i] := q] - {list[i]})
  {
    hide IsList;
    var left := qsets[list[i] := q] - {list[i]};
    forall a | a in left ensures exists j :: i + 1 <= j < |list| && list[j] == a {
      var j :| i <= j < |list| && list[j] == a;
    }
  }

  lemma NoNullTable(v: Dev, list: seq<nat>, i: nat, tables: map<nat, seq<nat>>)
    requires Ok(v, list) && TablesFrom(v, list, i, tables)
    ensures 0 !in tables && 0 !in v.tables && tables - {0} == tables
  {
    hide ItemsOk; hide BlocksOk; hide TableOf;
  }

  lemma ListStart(v: Dev, list: seq<nat>)
    requires Ok(v, list)
    ensures v.data == (if list == [] then 0 else list[0]) && (list != [] ==> v.data != 0)
  {
    hide TablesOk; hide BlocksOk;
  }

  lemma EmptyOk(v: Dev)
    requires v.quantum > 0 && v.qset > 0 && v.brk > 0 && v.size == 0 && v.data == 0
    requires v.qsets == map[] && v.tables == map[] && v.blocks == map[]
    ensures Ok(v, [])
  {
  }

  lemma AllFreed(v: Dev, list: seq<nat>, qsets: map<nat, QSet>, tables: map<nat, seq<nat>>, blocks: map<nat, seq<byte>>)
    requires ItemsFrom(v, list, |list|, qsets) && TablesFrom(v, list, |list|, tables) &&
             BlocksFrom(v, list, |list|, 0, blocks)
    requires 0 !in tables && 0 !in v.tables
    ensures qsets == map[] && tables == map[] && blocks == map[]
  {
  }

  lemma SameTrans(v: Dev, list: seq<nat>, r: Dev, list': seq<nat>, w: Dev, list'': seq<nat>)
    requires v.quantum > 0 && v.qset > 0 && SameCells(v, list, r, list') && SameCells(r, list', w, list'')
    ensures SameCells(v, list, w, list'')
  {
    hide CellAt;
  }

  lemma SameAt(v: Dev, list: seq<nat>, r: Dev, list': seq<nat>, off: nat)
    requires v.quantum > 0 && v.qset > 0 && SameCells(v, list, r, list')
    ensures At(r, list', off) == At(v, list, off)
  {
    hide CellAt;
  }

  // ----- Whether the list reaches the size

  lemma CoveredGrows(v: Dev, list: seq<nat>, r: Dev, list': seq<nat>)
    requires Covered(v, list) && r.size == v.size && r.quantum == v.quantum && r.qset == v.qset && |list| <= |list'|
    ensures Covered(r, list')
  {
    Scale(|list|, |list'|, v.quantum * v.qset);
  }

  /** The end of a write at `pos` is within the list exactly when the item number was not narrowed. */
  lemma CoveredWrite(pos: nat, count: nat, quantum: nat, qset: nat, n: nat, r: nat)
    requires quantum > 0 && qset > 0 && PosOf(pos, quantum, qset).item % TWO32 < n <= TWO32
    requires r == Chunk(count, pos, quantum, qset)
    ensures PosOf(pos, quantum, qset).item < TWO32 ==> pos + r <= n * (quantum * qset)
    ensures PosOf(pos, quantum, qset).item >= TWO32 && r > 0 ==> pos + r > n * (quantum * qset)
  {
    var p := PosOf(pos, quantum, qset);
    if p.item < TWO32 {
      ChunkReach(count, pos, quantum, qset, n);
    } else {
      PosWithin(pos, quantum, qset);
      hide PosOf; hide Chunk;
      Scale(n, p.item, quantum * qset);
      assert p.slot * quantum >= 0;
    }
  }

  lemma StaysCovered(v: Dev, list: seq<nat>, r: Dev, list': seq<nat>)
    requires r.size == v.size && r.quantum == v.quantum && r.qset == v.qset && |list| <= |list'|
    ensures Covered(v, list) ==> Covered(r, list')
  {
    if Covered(v, list) {
      CoveredGrows(v, list, r, list');
    }
  }

  /** `r` is the device before its size grows for a write of `n` bytes at `pos`. */
  lemma SizeGrows(v: Dev, list: seq<nat>, r: Dev, list': seq<nat>, pos: nat, count: nat, n: nat)
    requires v.quantum > 0 && v.qset > 0 && r.size == v.size && r.quantum == v.quantum && r.qset == v.qset
    requires |list| <= |list'| <= TWO32 && n == Chunk(count, pos, v.quantum, v.qset)
    requires PosOf(pos, v.quantum, v.qset).item % TWO32 < |list'|
    ensures var w := r.(size := Max(r.size, pos + n));
            && (Covered(v, list) && PosOf(pos, v.quantum, v.qset).item < TWO32 ==> Covered(w, list'))
            && (n > 0 && Covered(w, list') ==> PosOf(pos, v.quantum, v.qset).item < TWO32)
  {
    hide PosOf; hide Chunk;
    StaysCovered(v, list, r, list');
    CoveredWrite(pos, count, v.quantum, v.qset, |list'|, n);
  }

  lemma CopySizes(v: Dev, b: nat, at: nat, bytes: seq<byte>)
    requires b in v.blocks && at + |bytes| <= |v.blocks[b]|
    ensures var r := CopyIn(v, b, at, bytes);
            r.size == v.size && r.quantum == v.quantum && r.qset == v.qset
  {
  }

  /** Where the list reaches the size, the item of an offset below the size is on it. */
  lemma CoveredItem(v: Dev, list: seq<nat>, pos: nat)
    requires v.quantum > 0 && v.qset > 0 && pos < v.size && |list| <= TWO32
    ensures Covered(v, list) ==> PosOf(pos, v.quantum, v.qset).item % TWO32 < |list|
  {
    hide PosOf;
    if Covered(v, list) {
      Reached(pos, v.size, v.quantum, v.qset, |list|);
    }
  }

  lemma BeyondList(v: Dev, list: seq<nat>, i: nat, s: nat)
    requires Ok(v, list) && i >= |list|
    ensures BlockOf(v, list, i, s) == 0
  {
    NoTable(v, list, i);
    NoBlock(v, list, i, s);
  }

  lemma Sizable(v: Dev, list: seq<nat>)
    requires Ok(v, list)
    ensures v.quantum > 0 && v.qset > 0 && |list| <= TWO32
  {
  }

  lemma HoldsNone(v: Dev, list: seq<nat>, pos: nat)
    requires v.quantum > 0 && v.qset > 0
    ensures Holds(v, list, pos, [])
  {
  }

  lemma SameSelf(v: Dev, list: seq<nat>)
    requires v.quantum > 0 && v.qset > 0
    ensures SameCells(v, list, v, list)
  {
  }

  lemma SameParts(v: Dev, list: seq<nat>, r: Dev, list': seq<nat>)
    requires v.quantum > 0 && v.qset > 0 && SameCells(v, list, r, list')
    ensures r.quantum == v.quantum && r.qset == v.qset
  {
  }

  /** A read at `pos` adds items: the size reaches past the list there, and there is memory. */
  ghost predicate Allocates(v: Dev, list: seq<nat>, pos: nat, room: nat)
    requires v.quantum > 0 && v.qset > 0
  {
    pos < v.size && PosOf(pos, v.quantum, v.qset).item % TWO32 >= |list| && room > 0
  }

  /** How many bytes a read gives: none from the size on or at a hole, else up to the end of the block. */
  ghost function ReadSize(v: Dev, list: seq<nat>, count: nat, pos: nat): nat
    requires v.quantum > 0 && v.qset > 0
  {
    if pos >= v.size || At(v, list, pos) == Hole then 0
    else Chunk(Min(count, v.size - pos), pos, v.quantum, v.qset)
  }

  // ----- Several calls

  /** A caller sees `bytes` from `pos` on. */
  ghost predicate Holds(v: Dev, list: seq<nat>, pos: nat, bytes: seq<byte>)
    requires v.quantum > 0 && v.qset > 0
  {
    forall k: nat :: k < |bytes| ==> At(v, list, pos + k) == Byte(bytes[k])
  }

  /** The last bytes of the first `n` of `buf`, as many as do not share a place, are there. */
  ghost predicate HoldsLast(v: Dev, list: seq<nat>, pos: nat, buf: seq<byte>, n: nat)
    requires v.quantum > 0 && v.qset > 0 && n <= |buf|
  {
    forall k: nat :: k < n <= k + Span(v.quantum, v.qset) ==> At(v, list, pos + k) == Byte(buf[k])
  }

  /** Place `off` is that of one of the `n` offsets from `pos` on. */
  ghost predicate Hit(off: nat, pos: nat, n: nat, quantum: nat, qset: nat)
    requires quantum > 0 && qset > 0
  {
    exists k: nat :: k < n && HitBy(off, pos, k, quantum, qset)
  }

  ghost predicate HitBy(off: nat, pos: nat, k: nat, quantum: nat, qset: nat)
    requires quantum > 0 && qset > 0
  {
    Fold(pos + k, quantum, qset) == off
  }

  /** No byte outside the `n` from `pos` on has changed. */
  ghost predicate KeptOutside(v: Dev, list: seq<nat>, r: Dev, list': seq<nat>, pos: nat, n: nat)
    requires v.quantum > 0 && v.qset > 0
  {
    && r.quantum == v.quantum && r.qset == v.qset
    && forall off: nat :: !Hit(off, pos, n, v.quantum, v.qset) && CellAt(v, list, off) != Hole ==>
         CellAt(r, list', off) == CellAt(v, list, off)
  }

  lemma ChunkHits(off: nat, pos: nat, n: nat, m: nat, total: nat, quantum: nat, qset: nat)
    requires quantum > 0 && qset > 0 && n + m <= total && PosOf(pos + n, quantum, qset).at + m <= quantum
    ensures var f := Fold(pos + n, quantum, qset);
            f <= off < f + m ==> Hit(off, pos, total, quantum, qset)
  {
    hide PosOf; hide Fold;
    var f := Fold(pos + n, quantum, qset);
    if f <= off < f + m {
      FoldChunk(pos + n, off - f, quantum, qset);
      assert HitBy(off, pos, n + off - f, quantum, qset);
    }
  }

  lemma WriteKeeps(
    v: Dev, list: seq<nat>, r: Dev, list': seq<nat>, w: Dev, list'': seq<nat>, pos: nat, total: nat, n: nat,
        bytes: seq<byte>)
    requires v.quantum > 0 && v.qset > 0 && n + |bytes| <= total
    requires PosOf(pos + n, v.quantum, v.qset).at + |bytes| <= v.quantum
    requires KeptOutside(v, list, r, list', pos, total)
    requires Wrote(r, list', w, list'', Fold(pos + n, v.quantum, v.qset), bytes)
    ensures KeptOutside(v, list, w, list'', pos, total)
  {
    hide CellAt; hide SameBlock; hide PosOf; hide Fold;
    var f := Fold(pos + n, v.quantum, v.qset);
    forall off: nat | !Hit(off, pos, total, v.quantum, v.qset) && CellAt(v, list, off) != Hole
      ensures CellAt(w, list'', off) == CellAt(v, list, off)
    {
      assert WroteAt(r, list', w, list'', f, bytes, off);
      ChunkHits(off, pos, n, |bytes|, total, v.quantum, v.qset);
    }
  }

  lemma WriteHolds(r: Dev, list: seq<nat>, w: Dev, list': seq<nat>, pos: nat, buf: seq<byte>, n: nat, bytes: seq<byte>)
    requires r.quantum > 0 && r.qset > 0 && n + |bytes| <= |buf| && bytes == buf[n..n + |bytes|]
    requires PosOf(pos + n, r.quantum, r.qset).at + |bytes| <= r.quantum
    requires HoldsLast(r, list, pos, buf, n) && Wrote(r, list, w, list', Fold(pos + n, r.quantum, r.qset), bytes)
    ensures HoldsLast(w, list', pos, buf, n + |bytes|)
  {
    hide CellAt; hide SameBlock; hide PosOf; hide Fold; hide Span;
    var f, m, d := Fold(pos + n, r.quantum, r.qset), n + |bytes|, Span(r.quantum, r.qset);
    forall k: nat | k < m <= k + d ensures At(w, list', pos + k) == Byte(buf[k]) {
      var off := Fold(pos + k, r.quantum, r.qset);
      assert WroteAt(r, list, w, list', f, bytes, off);
      if k >= n {
        FoldChunk(pos + n, k - n, r.quantum, r.qset);
      } else {
        assert At(r, list, pos + k) == Byte(buf[k]);
        if f <= off < f + |bytes| {
          FoldChunk(pos + n, off - f, r.quantum, r.qset);
          Aliased(pos + k, n + (off - f) - k, r.quantum, r.qset);
          assert false;
        }
      }
    }
  }

  lemma HoldsSame(v: Dev, list: seq<nat>, r: Dev, list': seq<nat>, pos: nat, bytes: seq<byte>)
    requires v.quantum > 0 && v.qset > 0 && Holds(v, list, pos, bytes) && SameCells(v, list, r, list')
    ensures Holds(r, list', pos, bytes)
  {
    hide CellAt; hide Fold;
    forall k: nat | k < |bytes| ensures At(r, list', pos + k) == Byte(bytes[k]) {
      assert At(v, list, pos + k) == Byte(bytes[k]);
      SameAt(v, list, r, list', pos + k);
    }
  }

  lemma KeptSame(v: Dev, list: seq<nat>, r: Dev, list': seq<nat>, w: Dev, list'': seq<nat>, pos: nat, total: nat)
    requires v.quantum > 0 && v.qset > 0 && KeptOutside(v, list, r, list', pos, total) && SameCells(r, list', w, list'')
    ensures KeptOutside(v, list, w, list'', pos, total)
  {
    hide CellAt; hide Hit;
  }

  lemma HoldsLastSame(v: Dev, list: seq<nat>, r: Dev, list': seq<nat>, pos: nat, buf: seq<byte>, n: nat)
    requires v.quantum > 0 && v.qset > 0 && n <= |buf| && HoldsLast(v, list, pos, buf, n) &&
             SameCells(v, list, r, list')
    ensures HoldsLast(r, list', pos, buf, n)
  {
    hide CellAt; hide Fold; hide Span;
    forall k: nat | k < n <= k + Span(v.quantum, v.qset) ensures At(r, list', pos + k) == Byte(buf[k]) {
      SameAt(v, list, r, list', pos + k);
    }
  }

  lemma HoldsMore(v: Dev, list: seq<nat>, pos: nat, bytes: seq<byte>, more: seq<byte>)
    requires v.quantum > 0 && v.qset > 0 && Holds(v, list, pos, bytes) && Holds(v, list, pos + |bytes|, more)
    ensures Holds(v, list, pos, bytes + more)
  {
    hide At;
    forall k: nat | k < |bytes + more| ensures At(v, list, pos + k) == Byte((bytes + more)[k]) {
      if k >= |bytes| {
        assert At(v, list, pos + |bytes| + (k - |bytes|)) == Byte(more[k - |bytes|]);
      }
    }
  }

  lemma NeededBound(v: Dev, list: seq<nat>, p: Pos)
    ensures Needed(v, list, p) <= p.item + 3
  {
  }

  /** Of the bytes of `n` that share a place with byte `k`, the one written last. */
  function Latest(k: nat, n: nat, span: nat): (j: nat)
    requires k < n && span > 0
    ensures k <= j < n <= j + span
  {
    var q := (n - 1 - k) / span;
    assert q * span <= n - 1 - k < q * span + span;
    k + q * span
  }

  /** After all of `buf` is written, byte `k` reads as the last one written to its place. */
  lemma ReadsLatest(v: Dev, list: seq<nat>, pos: nat, buf: seq<byte>, k: nat)
    requires v.quantum > 0 && v.qset > 0 && HoldsLast(v, list, pos, buf, |buf|) && k < |buf|
    ensures At(v, list, pos + k) == Byte(buf[Latest(k, |buf|, Span(v.quantum, v.qset))])
  {
    hide CellAt; hide Span;
    var d := Span(v.quantum, v.qset);
    var j := Latest(k, |buf|, d);
    var q := (|buf| - 1 - k) / d;
    Aliased(pos + k, q, v.quantum, v.qset);
    hide Fold;
    assert pos + j == pos + k + q * d;
    assert At(v, list, pos + j) == Byte(buf[j]);
  }

  lemma FullRead(v: Dev, list: seq<nat>, pos: nat, buf: seq<byte>, m: nat)
    requires v.quantum > 0 && v.qset > 0 && HoldsLast(v, list, pos, buf, |buf|)
    ensures m < |buf| ==> At(v, list, pos + m) != Hole
  {
    if m < |buf| {
      ReadsLatest(v, list, pos, buf, m);
    }
  }

  /** Bytes that share a place are equal. */
  ghost predicate Repeats(buf: seq<byte>, span: nat) {
    forall k: nat :: k + span < |buf| ==> buf[k] == buf[k + span]
  }

  lemma {:induction false} RepeatsLatest(buf: seq<byte>, span: nat, k: nat)
    requires Repeats(buf, span) && span > 0 && k < |buf|
    ensures buf[k] == buf[Latest(k, |buf|, span)]
    decreases |buf| - k
  {
    if k + span < |buf| {
      RepeatsLatest(buf, span, k + span);
      LatestNext(k, |buf|, span);
    } else {
      LatestSelf(k, |buf|, span);
    }
  }

  lemma LatestNext(k: nat, n: nat, span: nat)
    requires span > 0 && k + span < n
    ensures Latest(k, n, span) == Latest(k + span, n, span)
  {
    var q := (n - 1 - (k + span)) / span;
    assert n - 1 - (k + span) == q * span + (n - 1 - (k + span)) % span;
    assert (q + 1) * span == q * span + span;
    DivUnique(n - 1 - k, q + 1, (n - 1 - (k + span)) % span, span);
  }

  lemma LatestSelf(k: nat, n: nat, span: nat)
    requires span > 0 && k < n <= k + span
    ensures Latest(k, n, span) == k
  {
    DivUnique(n - 1 - k, 0, n - 1 - k, span);
  }

  /** What the loops give back is what was written exactly when bytes that share a place are equal; so it
      is for anything up to 2^32 items long. */
  lemma RoundTripIff(buf: seq<byte>, bytes: seq<byte>, span: nat)
    requires span > 0 && |bytes| == |buf|
    requires forall k: nat :: k < |buf| ==> bytes[k] == buf[Latest(k, |buf|, span)]
    ensures bytes == buf <==> Repeats(buf, span)
    ensures |buf| <= span ==> bytes == buf
  {
    if Repeats(buf, span) {
      forall k: nat | k < |buf| ensures bytes[k] == buf[k] {
        RepeatsLatest(buf, span, k);
      }
    }
    if bytes == buf {
      forall k: nat | k + span < |buf| ensures buf[k] == buf[k + span] {
        LatestNext(k, |buf|, span);
        assert bytes[k] == bytes[k + span];
      }
    }
  }

  // ----- Runs

  lemma Sizes(v: Dev, list: seq<nat>)
    requires Ok(v, list)
    ensures forall t :: t in v.tables ==> |v.tables[t]| == v.qset
    ensures forall b :: b in v.blocks ==> |v.blocks[b]| == v.quantum
  {
    hide ItemsOk; hide BlockOf; hide TableOf;
  }

  /** A system call on the device, with what its surroundings do to it: module parameters, how many
      allocations succeed, what fresh memory holds, whether the copy faults and what it then leaves. */
  datatype Call =
    | OpenCall(writeOnly: bool, quantum: nat, qset: nat)
    | ReadCall(count: nat, pos: nat, room: nat, fault: bool)
    | WriteCall(buf: seq<byte>, pos: nat, room: nat, junk: nat -> byte, fault: bool, landed: nat -> byte)

  /** A write below 2^32 bytes, whose item number no parameters can make too large. */
  predicate Small(c: Call) {
    c.WriteCall? ==> c.pos < TWO32
  }

  lemma SmallItem(pos: nat, quantum: nat, qset: nat)
    requires quantum > 0 && qset > 0
    ensures pos < TWO32 ==> PosOf(pos, quantum, qset).item < TWO32
  {
    var p := PosOf(pos, quantum, qset);
    PosWithin(pos, quantum, qset);
    hide PosOf;
    MulPositive(quantum, qset);
    Scale(1, quantum * qset, p.item);
    assert p.slot * quantum >= 0;
  }

  lemma NothingCovered(v: Dev, list: seq<nat>)
    ensures v.size == 0 ==> Covered(v, list)
  {
    assert |list| * (v.quantum * v.qset) >= 0 by {
      assert v.quantum * v.qset >= 0;
      Scale(0, |list|, v.quantum * v.qset);
    }
  }

  function Fill(n: nat, f: nat -> byte): (r: seq<byte>)
    ensures |r| == n
  {
    seq(n, k requires 0 <= k < n => f(k))
  }

  predicate Positive(c: Call) {
    c.OpenCall? ==> c.quantum > 0 && c.qset > 0
  }

  /** The device and its items at one moment. */
  datatype Moment = Moment(v: Dev, list: seq<nat>)

  /** What each call does: a write-only open empties the device, a read changes no byte, and a write for which
      the memory suffices stores its chunk, or what has landed of it. */
  ghost predicate Did(s: Moment, c: Call, r: Moment)
    requires s.v.quantum > 0 && s.v.qset > 0
  {
    match c
    case OpenCall(writeOnly, quantum, qset) =>
      if !writeOnly then r == s else
      && r.list == [] && r.v.size == 0 && r.v.quantum == quantum && r.v.qset == qset
      && r.v.qsets == map[] && r.v.tables == map[] && r.v.blocks == map[]
    case ReadCall(_, _, _, _) => SameCells(s.v, s.list, r.v, r.list) && r.v.size == s.v.size
    case WriteCall(buf, pos, room, _, fault, landed) =>
      var f := Fold(pos, s.v.quantum, s.v.qset);
      var n := Chunk(|buf|, pos, s.v.quantum, s.v.qset);
      ChunkWithin(|buf|, pos, s.v.quantum, s.v.qset);
      if room < Needed(s.v, s.list, PosOf(f, s.v.quantum, s.v.qset))
      then SameCells(s.v, s.list, r.v, r.list) && r.v.size == s.v.size
      else if fault && n > 0
      then Wrote(s.v, s.list, r.v, r.list, f, Fill(|buf|, landed)[..n]) && r.v.size == s.v.size
      else Wrote(s.v, s.list, r.v, r.list, f, buf[..n]) && r.v.size == Max(s.v.size, pos + n)
  }

  ghost predicate Shown(s: Moment, c: Call, r: Moment) {
    s.v.quantum > 0 && s.v.qset > 0 && Did(s, c, r)
  }

  /** `trace` shows the device before the calls and after each. */
  ghost predicate Shows(trace: seq<Moment>, calls: seq<Call>) {
    |trace| == |calls| + 1 && forall i :: 0 <= i < |calls| ==> Shown(trace[i], calls[i], trace[i + 1])
  }

  lemma ShowsNext(trace: seq<Moment>, calls: seq<Call>, c: Call, r: Moment)
    requires Shows(trace, calls) && Shown(trace[|calls|], c, r)
    ensures Shows(trace + [r], calls + [c])
  {
    hide Shown;
  }

  /** The device. Its memory is its own; `list` names the items in order. */
  class ScullDev {
    var data: nat
    var quantum: nat
    var qset: nat
    var size: nat
    var qsets: map<nat, QSet>
    var tables: map<nat, seq<nat>>
    var blocks: map<nat, seq<byte>>
    var brk: nat
    ghost var list: seq<nat>

    ghost function V(): Dev
      reads this
    {
      Dev(data, quantum, qset, size, qsets, tables, blocks, brk)
    }

    ghost predicate Valid()
      reads this
    {
      Ok(V(), list)
    }

    /** The device as its first trim leaves it. */
    constructor (scullQuantum: nat, scullQset: nat)
      requires scullQuantum > 0 && scullQset > 0
      ensures Valid() && list == [] && size == 0 && quantum == scullQuantum && qset == scullQset
    {
      data, quantum, qset, size, brk := 0, scullQuantum, scullQset, 0, 1;
      qsets, tables, blocks, list := map[], map[], map[], [];
      new;
      EmptyOk(V());
    }

    /** A zeroed item behind the last item `qs`, or as the first one when there is none. */
    method Append(qs: nat) returns (item: nat)
      requires Valid() && |list| < TWO32 && qs == (if list == [] then 0 else list[|list| - 1])
      modifies this`data, this`qsets, this`brk, this`list
      ensures Valid() && SameCells(old(V()), old(list), V(), list)
      ensures item == old(brk) && brk == item + 1 && list == old(list) + [item]
      ensures forall i: nat :: TableOf(V(), list, i) == old(TableOf(V(), list, i))
    {
      hide CellAt; hide BlockOf; hide BlocksOk; hide TablesOk; hide ItemsOk;
      Grow(V(), list);
      item := brk;
      if qs == 0 {
        data, qsets := item, qsets[item := QSet(0, 0)];
      } else {
        qsets := qsets[qs := qsets[qs].(next := item)][item := QSet(0, 0)];
      }
      brk, list := brk + 1, list + [item];
    }

    /** Walk `n` items down the list, adding those that are missing; `room` allocations succeed. A negative
        `n` counts as `n` modulo 2^32. */
    method Follow(n: int, room: nat) returns (qs: nat, left: nat)
      requires Valid() && -TWO31 <= n < TWO31
      modifies this`data, this`qsets, this`brk, this`list
      ensures Valid() && SameCells(old(V()), old(list), V(), list)
      ensures qs == 0 <==> old(|list|) + room <= n % TWO32
      ensures qs != 0 ==> |list| == Max(old(|list|), n % TWO32 + 1) && qs == list[n % TWO32]
      ensures left + |list| == room + old(|list|) && (qs == 0 ==> left == 0)
      ensures forall i: nat :: TableOf(V(), list, i) == old(TableOf(V(), list, i))
      ensures brk - old(brk) == |list| - old(|list|) >= 0 && (brk == old(brk) ==> V() == old(V()) && list == old(list))
    {
      hide CellAt; hide BlockOf; hide BlocksOk; hide TablesOk; hide ItemsOk;
      qs, left := data, room;
      if qs == 0 {
        assert list == [] by { Empty(V(), list); }
        if left == 0 {
          return;
        }
        left := left - 1;
        qs := Append(0);
      } else {
        assert list != [] && list[0] == qs by { NotEmpty(V(), list); }
      }
      var k := n;
      ghost var steps, togo := n % TWO32, n % TWO32;
      while k != 0
        invariant -TWO31 <= k < TWO31 && togo == k % TWO32
        invariant 0 <= togo <= steps < |list| + togo && Valid() && qs == list[steps - togo] != 0
        invariant SameCells(old(V()), old(list), V(), list)
        invariant left + |list| == room + old(|list|)
        invariant |list| == Max(old(|list|), steps - togo + 1)
        invariant forall i: nat :: TableOf(V(), list, i) == old(TableOf(V(), list, i))
        invariant |list| == old(|list|) ==> V() == old(V()) && list == old(list)
        invariant brk - old(brk) == |list| - old(|list|)
        decreases togo
      {
        DownSteps(k);
        Linked(V(), list, steps - togo);
        var next := qsets[qs].next;
        if next == 0 {
          if left == 0 {
            qs := 0;
            return;
          }
          left := left - 1;
          next := Append(qs);
        }
        qs, k, togo := next, Down(k), togo - 1;
      }
    }

    /** The block of slot `s` of item `i` at `dptr`, allocated, with its table, if it is missing;
        0 when memory runs out. `junk` is what the fresh block holds. */
    method Prepare(dptr: nat, s: nat, room: nat, junk: seq<byte>, ghost i: nat, ghost pos: nat) returns (b: nat)
      requires Valid() && i < |list| && dptr == list[i] && s < qset && |junk| == quantum
      requires InSlot(pos, quantum, qset, i, s)
      modifies this`qsets, this`tables, this`blocks, this`brk
      ensures Valid()
      ensures b == 0 <==> room < old(SlotNeeds(V(), list, i, s))
      ensures b == 0 ==> SameCells(old(V()), list, V(), list)
      ensures b != 0 ==> b == BlockOf(V(), list, i, s) && b in blocks && |blocks[b]| == quantum
      ensures b != 0 ==> Wrote(old(V()), list, V(), list, pos, [])
    {
      hide CellAt; hide TablesOk; hide BlocksOk; hide ItemsOk; hide PosOf; hide InSlot; hide BlockOf; hide WroteAt;
      ghost var v0 := V();
      var left := room;
      TableAt(v0, list, i);
      if qsets[dptr].data == 0 {
        NoBlock(v0, list, i, s);
        if left == 0 {
          return 0;
        }
        left := left - 1;
        AddTableOk(v0, list, i);
        NewTableEmpty(v0, list, i, s);
        qsets, tables := qsets[dptr := qsets[dptr].(data := brk)], tables[brk := seq(qset, _ => 0)];
        brk := brk + 1;
        assert V() == AddTable(v0, list, i);
      }
      ghost var v1 := V();
      assert Valid() && SameCells(v0, list, v1, list) && TableOf(v1, list, i) != 0;
      assert BlockOf(v1, list, i, s) == BlockOf(v0, list, i, s);
      TableAt(v1, list, i);
      SlotAt(v1, list, i, s);
      var t := qsets[dptr].data;
      if tables[t][s] == 0 {
        if left == 0 {
          return 0;
        }
        AddBlockOk(v1, list, i, s, junk);
        AddBlockWrote(v1, list, i, s, junk, pos);
        var row: seq<nat> := tables[t][s := brk];
        tables, blocks, brk := tables[t := row], blocks[brk := junk], brk + 1;
        assert V() == AddBlock(v1, list, i, s, junk);
      } else {
        NothingWrote(v1, list, pos, i, s);
      }
      TableAt(V(), list, i);
      SlotAt(V(), list, i, s);
      BlockLive(V(), list, i, s);
      b := tables[t][s];
      SameThenWrote(v0, list, v1, list, V(), list, pos, []);
    }

    /** Write `buf` at `pos`. `room` allocations succeed and a fresh block holds `junk`; when `fault` is
        set the copy fails and leaves `landed`, or a part of it, in the block. The place written is that of
        the folded offset, while the size grows to the offset itself. */
    method Write(buf: seq<byte>, pos: nat, room: nat, junk: seq<byte>, fault: bool, landed: seq<byte>)
      returns (r: int, pos': nat)
      requires Valid() && |junk| == quantum && |landed| == |buf|
      modifies this
      ensures Valid() && quantum == old(quantum) && qset == old(qset)
      ensures old(|list|) <= |list| <= Max(old(|list|), PosOf(pos, quantum, qset).item % TWO32 + 1)
      ensures r == -ENOMEM <==> room < old(Needed(V(), list, PosOf(Fold(pos, quantum, qset), quantum, qset)))
      ensures r == -EFAULT <==> r != -ENOMEM && fault && Chunk(|buf|, pos, quantum, qset) > 0
      ensures r < 0 ==> r in {-ENOMEM, -EFAULT} && size == old(size) && pos' == pos
      ensures r == -ENOMEM ==> SameCells(old(V()), old(list), V(), list)
      ensures r == -EFAULT ==>
                Wrote(old(V()), old(list), V(), list, Fold(pos, quantum, qset),
                    landed[..Chunk(|buf|, pos, quantum, qset)])
      ensures r >= 0 ==> r == Chunk(|buf|, pos, quantum, qset) && ToTheEnd(|buf|, pos, quantum, r)
      ensures r >= 0 ==> Wrote(old(V()), old(list), V(), list, Fold(pos, quantum, qset), buf[..r])
      ensures r >= 0 ==> pos' == pos + r && size == Max(old(size), pos')
      ensures old(Covered(V(), list)) && (r < 0 || PosOf(pos, quantum, qset).item < TWO32) ==> Covered(V(), list)
      ensures r > 0 && Covered(V(), list) ==> PosOf(pos, quantum, qset).item < TWO32
    {
      hide CellAt; hide TablesOk; hide BlocksOk; hide ItemsOk; hide PosOf; hide BlockOf; hide TableOf; hide WroteAt;
      hide SlotNeeds; hide CopyIn; hide Chunk; hide Covered; hide Fold; hide Narrow; hide ToTheEnd;
      ghost var v0, l0 := V(), list;
      pos' := pos;
      var p := PosOf(pos, quantum, qset);
      ghost var f := Fold(pos, quantum, qset);
      FoldPos(pos, quantum, qset);
      PosWithin(pos, quantum, qset);
      NarrowExact(p.item);
      ghost var i := p.item % TWO32;
      var dptr, left := Follow(Narrow(p.item), room);
      ghost var v1 := V();
      SlotNeedsSame(v0, l0, v1, list, i, p.slot);
      if dptr == 0 {
        r := -ENOMEM;
        StaysCovered(v0, l0, V(), list);
        return;
      }
      var b := Prepare(dptr, p.slot, left, junk, i, f);
      ghost var v2 := V();
      if b == 0 {
        r := -ENOMEM;
        StaysCovered(v0, l0, V(), list);
        return;
      }
      SameThenWrote(v0, l0, v1, list, v2, list, f, []);
      r := Chunk(|buf|, pos, quantum, qset);
      ChunkWithin(|buf|, pos, quantum, qset);
      var bytes := if fault then landed[..r] else buf[..r];
      CopyInOk(v2, list, b, p.at, bytes);
      CopyInWrote(v2, list, b, f, bytes);
      Copy(b, p.at, bytes);
      CopySizes(v2, b, p.at, bytes);
      WroteTwice(v0, l0, v2, list, V(), list, f, bytes);
      if fault && r > 0 {
        r := -EFAULT;
        StaysCovered(v0, l0, V(), list);
        return;
      }
      assert bytes == buf[..r];
      pos' := pos + r;
      SizeGrows(v0, l0, V(), list, pos, |buf|, r);
      if size < pos' {
        SizeOnly(V(), list, pos');
        WroteThenSame(v0, l0, V(), list, V().(size := pos'), list, f, bytes);
        size := pos';
      }
    }

    /** The copy into a block. */
    method Copy(b: nat, at: nat, bytes: seq<byte>)
      requires b in blocks && at + |bytes| <= |blocks[b]|
      modifies this`blocks
      ensures V() == CopyIn(old(V()), b, at, bytes)
    {
      var row: seq<byte> := blocks[b];
      blocks := blocks[b := row[..at] + bytes + row[at + |bytes|..]];
    }

    /** Read up to `count` bytes at `pos`. It stops at a hole and changes no byte; it adds items to the list
        only where the size reaches past it, which narrowing alone brings about. */
    method Read(count: nat, pos: nat, room: nat, fault: bool) returns (r: int, bytes: seq<byte>, pos': nat)
      requires Valid()
      modifies this`data, this`qsets, this`brk, this`list
      ensures Valid() && SameCells(old(V()), old(list), V(), list) && |list| >= old(|list|)
      ensures V() == old(V()) <==> !old(Allocates(V(), list, pos, room))
      ensures brk >= old(brk) && (brk == old(brk) ==> V() == old(V()) && list == old(list))
      ensures old(Covered(V(), list)) ==> V() == old(V()) && list == old(list)
      ensures r == if fault && ReadSize(V(), list, count, pos) > 0 then -EFAULT else ReadSize(V(), list, count, pos)
      ensures r >= 0 && pos < size && At(V(), list, pos) != Hole ==> ToTheEnd(Min(count, size - pos), pos, quantum, r)
      ensures r >= 0 ==> |bytes| == r && pos' == pos + r && Holds(V(), list, pos, bytes)
      ensures r < 0 ==> bytes == [] && pos' == pos
    {
      hide ToTheEnd; hide Ok; hide PosOf; hide TableOf; hide Chunk; hide At; hide Fold; hide Narrow; hide Covered;
      hide SameCells; hide Holds;
      assert quantum > 0 && qset > 0 && |list| <= TWO32 by { Sizable(V(), list); }
      r, bytes, pos' := 0, [], pos;
      if pos >= size {
        SameSelf(V(), list);
        assert Holds(V(), list, pos, []) by { HoldsNone(V(), list, pos); }
        return;
      }
      var n := if pos + count > size then size - pos else count;
      var p := PosOf(pos, quantum, qset);
      NarrowExact(p.item);
      CoveredItem(V(), list, pos);
      var dptr, _ := Follow(Narrow(p.item), room);
      ChunkWithin(n, pos, quantum, qset);
      r, bytes := ReadBlock(dptr, pos, n, fault);
      if r >= 0 {
        pos' := pos + r;
      }
    }

    /** The part of `scull_read` behind the walk. */
    method ReadBlock(dptr: nat, pos: nat, n: nat, fault: bool) returns (r: int, bytes: seq<byte>)
      requires Valid()
      requires var i := PosOf(pos, quantum, qset).item % TWO32;
               if dptr == 0 then i >= |list| else i < |list| && dptr == list[i]
      ensures var m := if At(V(), list, pos) == Hole then 0 else Chunk(n, pos, quantum, qset);
              r == if fault && m > 0 then -EFAULT else m
      ensures r >= 0 ==> |bytes| == r && Holds(V(), list, pos, bytes)
      ensures r < 0 ==> bytes == []
    {
      hide TablesOk; hide BlocksOk; hide ItemsOk; hide PosOf; hide BlockOf; hide TableOf; hide Chunk; hide CellOf;
      hide Fold;
      r, bytes := 0, [];
      var p := PosOf(pos, quantum, qset);
      ghost var f, i := Fold(pos, quantum, qset), p.item % TWO32;
      FoldPos(pos, quantum, qset);
      PosWithin(pos, quantum, qset);
      HoleIff(V(), list, PosOf(f, quantum, qset));
      if dptr == 0 {
        BeyondList(V(), list, i, p.slot);
        return;
      }
      TableAt(V(), list, i);
      var t := qsets[dptr].data;
      if t == 0 {
        NoBlock(V(), list, i, p.slot);
        return;
      }
      SlotAt(V(), list, i, p.slot);
      var b := tables[t][p.slot];
      if b == 0 {
        return;
      }
      BlockLive(V(), list, i, p.slot);
      r := Chunk(n, pos, quantum, qset);
      ChunkWithin(n, pos, quantum, qset);
      if fault && r > 0 {
        r := -EFAULT;
        return;
      }
      bytes := blocks[b][p.at..p.at + r];
      forall k: nat | k < r ensures At(V(), list, pos + k) == Byte(bytes[k]) {
        FoldChunk(pos, k, quantum, qset);
        CellInBlock(V(), list, b, f, k);
      }
    }

    /** kfree of a block, a table, an item: the address is NULL or live. */
    method FreeBlock(b: nat)
      requires b == 0 || b in blocks
      modifies this`blocks
      ensures blocks == old(blocks) - {b}
    {
      blocks := blocks - {b};
    }

    method FreeTable(t: nat)
      requires t == 0 || t in tables
      modifies this`tables
      ensures tables == old(tables) - {t}
    {
      tables := tables - {t};
    }

    method FreeItem(a: nat)
      requires a == 0 || a in qsets
      modifies this`qsets
      ensures qsets == old(qsets) - {a}
    {
      qsets := qsets - {a};
    }

    /** Free everything and take over the module parameters. Each address is live when it is freed,
        so nothing is freed twice; nothing is live at the end. */
    method Trim(scullQuantum: nat, scullQset: nat)
      requires Valid() && scullQuantum > 0 && scullQset > 0
      modifies this
      ensures Valid() && list == [] && size == 0 && quantum == scullQuantum && qset == scullQset
      ensures qsets == map[] && tables == map[] && blocks == map[] && brk == old(brk)
    {
      hide IsList; hide TableOf; hide BlockOf; hide ItemsOk; hide TablesOk; hide BlocksOk;
      hide ItemsFrom; hide TablesFrom; hide BlocksFrom;
      ghost var v, l := V(), list;
      ghost var i := 0;
      var n := qset;
      var dptr := data;
      FromStart(v, l);
      ListStart(v, l);
      while dptr != 0
        invariant 0 <= i <= |l| && dptr == (if i < |l| then l[i] else 0) && (i < |l| ==> dptr != 0)
        invariant ItemsFrom(v, l, i, qsets) && TablesFrom(v, l, i, tables) && BlocksFrom(v, l, i, 0, blocks)
        invariant brk == old(brk)
        decreases |l| - i
      {
        TableAt(v, l, i);
        Linked(v, l, i);
        TableFreed(v, l, i, tables);
        ItemFreed(v, l, i, qsets, v.qsets[dptr]);
        ItemFreed(v, l, i, qsets, v.qsets[dptr].(data := 0));
        assert qsets[dptr := v.qsets[dptr]] == qsets;
        var t := qsets[dptr].data;
        if t != 0 {
          FreeRow(t, n, i, v, l);
          FreeTable(t);
          qsets := qsets[dptr := qsets[dptr].(data := 0)];
        } else {
          NoSlots(v, l, i, 0);
          RowDone(v, l, i, 0, blocks);
          NoNullTable(v, l, i, tables);
        }
        var next := qsets[dptr].next;
        FreeItem(dptr);
        if i + 1 < |l| {
          Linked(v, l, i + 1);
        }
        dptr, i := next, i + 1;
      }
      NoNullTable(v, l, i, tables);
      AllFreed(v, l, qsets, tables, blocks);
      size, quantum, qset, data, list := 0, scullQuantum, scullQset, 0, [];
      EmptyOk(V());
    }

    /** Free the blocks of the table of item `i`. */
    method FreeRow(t: nat, n: nat, ghost i: nat, ghost v: Dev, ghost l: seq<nat>)
      requires Ok(v, l) && i < |l| && n == v.qset && t != 0 && t == TableOf(v, l, i)
      requires t in tables && t in v.tables && tables[t] == v.tables[t] && BlocksFrom(v, l, i, 0, blocks)
      modifies this`blocks
      ensures BlocksFrom(v, l, i + 1, 0, blocks)
    {
      hide IsList; hide TableOf; hide BlockOf; hide ItemsOk; hide TablesOk; hide BlocksOk; hide BlocksFrom;
      var k := 0;
      while k < n
        invariant 0 <= k <= n && BlocksFrom(v, l, i, k, blocks)
      {
        SlotAt(v, l, i, k);
        BlockFreed(v, l, i, k, blocks);
        FreeBlock(tables[t][k]);
        k := k + 1;
      }
      NoSlots(v, l, i, k);
      RowDone(v, l, i, k, blocks);
    }

    /** Opening for writing only discards the contents. */
    method Open(writeOnly: bool, scullQuantum: nat, scullQset: nat)
      requires Valid() && scullQuantum > 0 && scullQset > 0
      modifies this
      ensures Valid()
      ensures writeOnly ==> list == [] && size == 0 && quantum == scullQuantum && qset == scullQset
      ensures writeOnly ==> qsets == map[] && tables == map[] && blocks == map[]
      ensures !writeOnly ==> V() == old(V()) && list == old(list)
    {
      if writeOnly {
        Trim(scullQuantum, scullQset);
      }
    }

    /** Write all of `buf`, call by call, until one fails; the arguments of the call made after `n` bytes
        are functions of `n`. */
    method WriteAll(buf: seq<byte>, pos: nat, room: nat -> nat, junk: nat -> seq<byte>, fault: nat -> bool)
      returns (n: nat, r: int)
      requires Valid() && forall k: nat :: |junk(k)| == quantum
      modifies this
      ensures Valid() && n <= |buf| && (n == |buf| <==> r >= 0)
      ensures r < 0 ==> fault(n) || room(n) < PosOf(Fold(pos + n, quantum, qset), quantum, qset).item + 3
      ensures KeptOutside(old(V()), old(list), V(), list, pos, |buf|) && (r >= 0 ==> HoldsLast(V(), list, pos, buf, n))
      ensures size == if n == 0 then old(size) else Max(old(size), pos + n)
    {
      hide CellAt; hide TablesOk; hide BlocksOk; hide ItemsOk; hide PosOf; hide BlockOf; hide TableOf; hide WroteAt;
      hide Needed; hide CopyIn; hide Chunk; hide Wrote; hide SameCells; hide Covered; hide Fold; hide Hit; hide Span;
      n, r := 0, 0;
      while n < |buf|
        invariant Valid() && n <= |buf| && r >= 0 && quantum == old(quantum) && qset == old(qset)
        invariant KeptOutside(old(V()), old(list), V(), list, pos, |buf|) && HoldsLast(V(), list, pos, buf, n)
        invariant size == if n == 0 then old(size) else Max(old(size), pos + n)
      {
        ghost var v, l := V(), list;
        var rest := buf[n..];
        ChunkWithin(|rest|, pos + n, quantum, qset);
        NeededBound(v, l, PosOf(Fold(pos + n, quantum, qset), quantum, qset));
        var pos';
        r, pos' := Write(rest, pos + n, room(n), junk(n), fault(n), rest);
        if r == -ENOMEM {
          KeptSame(old(V()), old(list), v, l, V(), list, pos, |buf|);
          return;
        }
        ghost var bytes := rest[..Chunk(|rest|, pos + n, quantum, qset)];
        WriteKeeps(old(V()), old(list), v, l, V(), list, pos, |buf|, n, bytes);
        if r == -EFAULT {
          return;
        }
        assert rest[..r] == buf[n..n + r];
        WriteHolds(v, l, V(), list, pos, buf, n, bytes);
        n := n + r;
      }
    }

    /** Read `count` bytes, call by call, until one fails or returns nothing. */
    method ReadAll(count: nat, pos: nat, room: nat, fault: nat -> bool) returns (bytes: seq<byte>, r: int)
      requires Valid()
      modifies this`data, this`qsets, this`brk, this`list
      ensures Valid() && SameCells(old(V()), old(list), V(), list)
      ensures old(Covered(V(), list)) ==> V() == old(V()) && list == old(list)
      ensures |bytes| <= count && Holds(V(), list, pos, bytes)
      ensures |bytes| < count && r >= 0 ==> pos + |bytes| >= size || At(V(), list, pos + |bytes|) == Hole
      ensures r < 0 ==> exists n: nat :: fault(n)
    {
      hide At; hide CellAt; hide TablesOk; hide BlocksOk; hide ItemsOk; hide PosOf; hide Chunk; hide Covered;
      hide SameCells;
      bytes, r := [], 0;
      assert SameCells(V(), list, V(), list) by { SameSelf(V(), list); }
      while |bytes| < count
        invariant Valid() && SameCells(old(V()), old(list), V(), list) && quantum == old(quantum) && qset == old(qset)
        invariant old(Covered(V(), list)) ==> V() == old(V()) && list == old(list)
        invariant |bytes| <= count && Holds(V(), list, pos, bytes)
        decreases count - |bytes|
      {
        ghost var v, l := V(), list;
        var at := pos + |bytes|;
        if at < size {
          ChunkWithin(Min(count - |bytes|, size - at), at, quantum, qset);
        }
        var more, pos';
        r, more, pos' := Read(count - |bytes|, at, room, fault(|bytes|));
        SameTrans(old(V()), old(list), v, l, V(), list);
        HoldsSame(v, l, V(), list, pos, bytes);
        if r <= 0 {
          assert r < 0 ==> fault(|bytes|);
          return;
        }
        HoldsMore(V(), list, pos, bytes, more);
        bytes := bytes + more;
      }
    }

    /** What was written is read back, whatever the device held before and wherever the calls split: byte by
        byte the last one written to its place. That is `buf` itself exactly when bytes 2^32 items apart
        are equal, so always up to that length. */
    method RoundTrip(buf: seq<byte>, pos: nat, room: nat -> nat, junk: nat -> seq<byte>, room': nat)
      returns (ok: bool, bytes: seq<byte>)
      requires Valid() && forall k: nat :: |junk(k)| == quantum
      modifies this
      ensures Valid() && quantum == old(quantum) && qset == old(qset)
      ensures ok ==> |bytes| == |buf| && forall k: nat :: k < |buf| ==>
              bytes[k] == buf[Latest(k, |buf|, Span(quantum, qset))]
      ensures ok ==> (bytes == buf <==> Repeats(buf, Span(quantum, qset)))
      ensures ok && |buf| <= Span(quantum, qset) ==> bytes == buf
      ensures !ok ==>
                exists n: nat :: n < |buf| && room(n) < PosOf(Fold(pos + n, quantum, qset), quantum, qset).item + 3
    {
      hide At; hide CellAt; hide TablesOk; hide BlocksOk; hide ItemsOk; hide PosOf; hide Chunk; hide Covered;
      hide SameCells;
      hide Fold; hide Span; hide Latest; hide Repeats; hide Hit;
      var n, r := WriteAll(buf, pos, room, junk, _ => false);
      ok, bytes := r >= 0, [];
      if ok {
        ghost var v, l := V(), list;
        bytes, r := ReadAll(|buf|, pos, room', _ => false);
        assert quantum == v.quantum && qset == v.qset by { SameParts(v, l, V(), list); }
        forall k: nat | k < |buf| ensures At(V(), list, pos + k) == Byte(buf[Latest(k, |buf|, Span(quantum, qset))]) {
          ReadsLatest(v, l, pos, buf, k);
          SameAt(v, l, V(), list, pos + k);
        }
        FullRead(v, l, pos, buf, |bytes|);
        SameAt(v, l, V(), list, pos + |bytes|);
        forall k: nat | k < |bytes| ensures bytes[k] == buf[Latest(k, |buf|, Span(quantum, qset))] {
          assert At(V(), list, pos + k) == Byte(bytes[k]);
        }
        RoundTripIff(buf, bytes, Span(quantum, qset));
      }
    }

    ghost function Now(): Moment
      reads this
    {
      Moment(V(), list)
    }

    /** One call of a file operation. */
    method Do(c: Call)
      requires Valid() && Positive(c)
      modifies this
      ensures Valid() && Shown(old(Now()), c, Now())
      ensures old(Covered(V(), list)) && Small(c) ==> Covered(V(), list)
    {
      hide Ok; hide CellAt; hide Needed; hide Chunk; hide Wrote; hide SameCells; hide WroteAt; hide PosOf; hide At;
      hide Covered; hide Fold;
      Sizable(V(), list);
      match c {
        case OpenCall(writeOnly, q, n) =>
          Open(writeOnly, q, n);
          NothingCovered(V(), list);
        case ReadCall(count, pos, room, fault) =>
          var _, _, _ := Read(count, pos, room, fault);
        case WriteCall(buf, pos, room, junk, fault, landed) =>
          SmallItem(pos, quantum, qset);
          ChunkWithin(|buf|, pos, quantum, qset);
          var memory := Fill(quantum, junk);
          var _, _ := Write(buf, pos, room, memory, fault, Fill(|buf|, landed));
      }
    }

    /** Over any run of opens, reads and writes, with allocations and copies failing anywhere and module
        parameters changing between opens, the shape holds: every live item, table and block is linked
        once, every table has `qset` slots and every block `quantum` bytes. And each call does what it
        should: `trace` is the run, call by call. */
    method Perform(calls: seq<Call>) returns (ghost trace: seq<Moment>)
      requires Valid() && forall i :: 0 <= i < |calls| ==> Positive(calls[i])
      modifies this
      ensures Valid() && Shows(trace, calls) && trace[0] == old(Now()) && trace[|calls|] == Now()
      ensures old(Covered(V(), list)) && (forall i :: 0 <= i < |calls| ==> Small(calls[i])) ==> Covered(V(), list)
      ensures forall t :: t in tables ==> |tables[t]| == qset
      ensures forall b :: b in blocks ==> |blocks[b]| == quantum
    {
      hide Ok; hide Shown; hide Covered; hide Small;
      trace := [Now()];
      for i := 0 to |calls|
        invariant Valid() && Shows(trace, calls[..i]) && trace[0] == old(Now()) && trace[i] == Now()
        invariant old(Covered(V(), list)) && (forall j :: 0 <= j < |calls| ==> Small(calls[j])) ==> Covered(V(), list)
      {
        Do(calls[i]);
        assert calls[..i + 1] == calls[..i] + [calls[i]];
        ShowsNext(trace, calls[..i], calls[i], Now());
        trace := trace + [Now()];
      }
      assert calls[..|calls|] == calls;
      Sizes(V(), list);
    }

    /** After any such run a trim frees everything that is live, so nothing leaks. */
    method PerformThenTrim(calls: seq<Call>, scullQuantum: nat, scullQset: nat)
      requires Valid() && (forall i :: 0 <= i < |calls| ==> Positive(calls[i])) && scullQuantum > 0 && scullQset > 0
      modifies this
      ensures Valid() && qsets == map[] && tables == map[] && blocks == map[]
    {
      var _ := Perform(calls);
      Trim(scullQuantum, scullQset);
    }
  }

  // ----- What callers of an empty device of one-byte items can see

  lemma NothingThere(v: Dev, off: nat)
    requires Ok(v, [])
    ensures CellAt(v, [], off) == Hole
    ensures Needed(v, [], PosOf(off, v.quantum, v.qset)) <= PosOf(off, v.quantum, v.qset).item + 3
  {
    var p := PosOf(off, v.quantum, v.qset);
    PosWithin(off, v.quantum, v.qset);
    hide PosOf;
    BeyondList(v, [], p.item, p.slot);
    HoleIff(v, [], p);
  }

  lemma OneByteItems(off: nat)
    ensures PosOf(off, 1, 1) == Pos(off, 0, 0) && Span(1, 1) == TWO32 && Fold(off, 1, 1) == off % TWO32
  {
  }

  /** One byte is written at 5. A read at 0 says end of file, although the byte is there. */
  method HoleReadsAsEnd() returns (size: nat, atHole: int, last: seq<byte>)
    ensures size == 6 && atHole == 0 && last == [7]
  {
    hide Ok; hide CellAt; hide PosOf; hide Fold; hide Span; hide Needed; hide Covered;
    var d := new ScullDev(1, 1);
    ghost var v := d.V();
    OneByteItems(0);
    OneByteItems(5);
    NothingThere(v, 0);
    NothingThere(v, 5);
    var r, end := d.Write([7], 5, 8, [0], false, [7]);
    assert r == 1 && [7 as byte][..1] == [7];
    assert WroteAt(v, [], d.V(), d.list, 5, [7], 0) && WroteAt(v, [], d.V(), d.list, 5, [7], 5);
    size := d.size;
    atHole, last, end := d.Read(1, 0, 0, false);
    assert At(d.V(), d.list, 5) != Hole;
    r, last, end := d.Read(1, 5, 0, false);
    assert At(d.V(), d.list, 5 + 0) == Byte(last[0]);
  }

  /** One byte is written at 2^32. It is read at 0; and a read below the size adds items to the list. */
  method NarrowedWrite() returns (size: nat, first: seq<byte>, added: int)
    ensures size == TWO32 + 1 && first == [7] && added > 0
  {
    hide Ok; hide CellAt; hide PosOf; hide Fold; hide Span; hide Needed; hide Covered;
    var d := new ScullDev(1, 1);
    ghost var v := d.V();
    OneByteItems(0);
    OneByteItems(3);
    OneByteItems(TWO32);
    NothingThere(v, 0);
    var r, end := d.Write([7], TWO32, 8, [0], false, [7]);
    assert r == 1 && [7 as byte][..1] == [7];
    assert WroteAt(v, [], d.V(), d.list, 0, [7], 0);
    size := d.size;
    assert At(d.V(), d.list, 0) == Byte(7);
    r, first, end := d.Read(1, 0, 0, false);
    assert At(d.V(), d.list, 0 + 0) == Byte(first[0]);
    var before := d.brk;
    ghost var n := |d.list|;
    var bytes;
    r, bytes, end := d.Read(1, 3, 8, false);
    added := d.brk - before;
  }
}
