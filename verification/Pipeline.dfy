/** The shell's pipeline wiring: the pipe/fork/dup/close loop of `exec_job`, on descriptor tables. */
module Pipeline {

  /** An open file: an end of one of the loop's pipes, numbered in order of creation, or any other. */
  datatype File = ReadEnd(pipe: nat) | WriteEnd(pipe: nat) | Plain(id: nat)

  type FdTable = map<nat, File>

  /** New descriptors are the lowest free ones, section 2.14 of the POSIX.1-2017 System Interfaces
      volume. */
  function LowestFree(t: FdTable, i: nat): (fd: nat)
    ensures fd >= i && fd !in t
    ensures forall j :: i <= j < fd ==> j in t
    decreases |set k | k in t && k >= i|
  {
    if i !in t then i
    else
      (ghost var above, all := set k | k in t && k >= i + 1, set k | k in t && k >= i;
       assert all == above + {i};
       LowestFree(t, i + 1))
  }

  function Close(t: FdTable, fd: nat): FdTable {
    t - {fd}
  }

  function Dup(t: FdTable, fd: nat): FdTable {
    if fd in t then t[LowestFree(t, 0) := t[fd]] else t
  }

  /** `close(old); dup(fd)` with every lower descriptor open moves the file of `fd` to `old`. */
  lemma CloseDup(t: FdTable, old_: nat, fd: nat)
    requires fd in t && fd != old_ && forall j :: 0 <= j < old_ ==> j in t
    ensures Dup(Close(t, old_), fd) == t[old_ := t[fd]]
  {
    var c := Close(t, old_);
    var low := LowestFree(c, 0);
    assert low == old_;
    assert c[low := c[fd]] == t[old_ := t[fd]];
  }

  /** What stage `i` of `count` inherits and then does to its table. */
  function ChildTable(t: FdTable, i: nat, count: nat, input: nat, fd0: nat, fd1: nat): FdTable {
    var t1 := if i != 0 then Close(Close(Dup(Close(t, 0), input), fd0), input) else t;
    if i != count - 1 then Close(Dup(Close(t1, 1), fd1), fd1) else t1
  }

  /** The parent after `i` stages: its own files are in place, it holds no write end, and of the read ends
      exactly those created so far, the last of them at `input`. */
  ghost predicate ParentOk(parent: FdTable, start: FdTable, i: nat, input: nat) {
    && 0 in parent && 1 in parent && 0 in start && 1 in start
    && parent[0] == start[0] && parent[1] == start[1] && parent[0].Plain? && parent[1].Plain?
    && (forall fd :: fd in parent ==> !parent[fd].WriteEnd? && (parent[fd].ReadEnd? ==> parent[fd].pipe < i))
    && (i == 0 ==> input == 0)
    && (i > 0 ==> input > 1 && input in parent && parent[input] == ReadEnd(i - 1)
                  && forall fd :: fd in parent && parent[fd] == ReadEnd(i - 1) ==> fd == input)
    && (forall k :: 0 <= k < i ==> exists fd :: fd in parent && parent[fd] == ReadEnd(k))
  }

  /** What the wiring promises of stage `i`. */
  ghost predicate ChildOk(c: FdTable, start: FdTable, i: nat, count: nat) {
    && 0 in c && 1 in c && 0 in start && 1 in start
    && c[0] == (if i == 0 then start[0] else ReadEnd(i - 1))
    && c[1] == (if i == count - 1 then start[1] else WriteEnd(i))
    && (forall fd :: fd in c && c[fd].WriteEnd? ==> c[fd].pipe == i && (i < count - 1 ==> fd == 1))
    && (forall fd :: fd in c && c[fd].ReadEnd? ==> c[fd].pipe < i || i == 0)
    && (forall k :: 0 <= k < i ==> exists fd :: fd in c && c[fd] == ReadEnd(k))
  }

  lemma ChildWired(parent: FdTable, start: FdTable, i: nat, count: nat, input: nat, fd0: nat, fd1: nat)
    requires ParentOk(parent, start, i, input) && i < count
    requires fd0 !in parent && fd1 !in parent && fd0 != fd1
    ensures ChildOk(ChildTable(parent[fd0 := ReadEnd(i)][fd1 := WriteEnd(i)], i, count, input, fd0, fd1), start, i,
            count)
  {
    hide LowestFree; hide Dup;
    var t := parent[fd0 := ReadEnd(i)][fd1 := WriteEnd(i)];
    assert fd0 > 1 && fd1 > 1;
    var t1 := t;
    if i != 0 {
      CloseDup(t, 0, input);
      t1 := Close(Close(t[0 := ReadEnd(i - 1)], fd0), input);
    }
    assert fd1 in t1 && t1[fd1] == WriteEnd(i) && 0 in t1;
    var c := ChildTable(t, i, count, input, fd0, fd1);
    if i != count - 1 {
      CloseDup(t1, 1, fd1);
      assert c == Close(t1[1 := WriteEnd(i)], fd1);
    } else {
      assert c == t1;
    }
    forall k | 0 <= k < i ensures exists fd :: fd in c && c[fd] == ReadEnd(k) {
      if k == i - 1 {
        assert c[0] == ReadEnd(k);
      } else {
        var fd :| fd in parent && parent[fd] == ReadEnd(k);
        assert fd in c && c[fd] == ReadEnd(k);
      }
    }
  }

  /** The loop of `exec_job` over `count` stages, from the shell's own table. Each stage reads from the
      previous one's pipe and writes to its own; the write end of every pipe but the last is open in one
      place only, descriptor 1 of the stage that writes it, so the next stage sees end of file when that
      stage ends. The read ends are not so tidy: the parent never closes them, and every later stage
      inherits the earlier ones. */
  method ConnectPipes(start: FdTable, count: nat) returns (parent: FdTable, child: seq<FdTable>)
    requires 0 in start && 1 in start && forall fd :: fd in start ==> start[fd].Plain?
    ensures |child| == count
    ensures forall i :: 0 <= i < count ==> ChildOk(child[i], start, i, count)
    ensures forall fd :: fd in parent ==> !parent[fd].WriteEnd?
    ensures forall k :: 0 <= k < count ==> exists fd :: fd in parent && parent[fd] == ReadEnd(k)
  {
    hide ChildOk; hide ChildTable;
    parent, child := start, [];
    var input := 0;
    var i := 0;
    while i < count
      invariant 0 <= i <= count && |child| == i
      invariant ParentOk(parent, start, i, input)
      invariant forall j :: 0 <= j < i ==> ChildOk(child[j], start, j, count)
    {
      var fd0 := LowestFree(parent, 0);
      var t := parent[fd0 := ReadEnd(i)];
      var fd1 := LowestFree(t, 0);
      t := t[fd1 := WriteEnd(i)];
      ChildWired(parent, start, i, count, input, fd0, fd1);
      child := child + [ChildTable(t, i, count, input, fd0, fd1)];
      ParentMoves(parent, start, i, input, fd0, fd1);
      parent := Close(t, fd1);
      input := fd0;
      i := i + 1;
    }
  }

  lemma ParentMoves(parent: FdTable, start: FdTable, i: nat, input: nat, fd0: nat, fd1: nat)
    requires ParentOk(parent, start, i, input)
    requires fd0 !in parent && fd1 !in parent && fd0 != fd1
    ensures ParentOk(Close(parent[fd0 := ReadEnd(i)][fd1 := WriteEnd(i)], fd1), start, i + 1, fd0)
  {
    var p := Close(parent[fd0 := ReadEnd(i)][fd1 := WriteEnd(i)], fd1);
    assert fd0 > 1 && fd1 > 1;
    forall k | 0 <= k < i + 1 ensures exists fd :: fd in p && p[fd] == ReadEnd(k) {
      if k == i {
        assert p[fd0] == ReadEnd(k);
      } else {
        var fd :| fd in parent && parent[fd] == ReadEnd(k);
        assert fd in p && p[fd] == ReadEnd(k);
      }
    }
  }

  /** Who can still write to pipe `k` once every stage has started, the shell being process 0 and stage i
      process i + 1: stage k through descriptor 1, and nobody else. */
  lemma OneWriter(parent: FdTable, child: seq<FdTable>, start: FdTable, k: nat, p: nat, fd: nat)
    requires forall f :: f in parent ==> !parent[f].WriteEnd?
    requires forall i :: 0 <= i < |child| ==> ChildOk(child[i], start, i, |child|)
    requires k < |child| - 1 && p <= |child|
    ensures var table := ([parent] + child)[p];
            fd in table && table[fd] == WriteEnd(k) <==> p == k + 1 && fd == 1
  {
    if p > 0 {
      assert ChildOk(child[p - 1], start, p - 1, |child|);
    }
  }
}
