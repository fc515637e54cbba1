/** What the priority arrays are made of: bitmaps searched from the front, and linked lists as
    sequences in which each member is linked once. */
module Lists {

  const MAX_RT_PRIO := 100

  /** `sched_find_first_bit`; bit MAX_RT_PRIO is the delimiter. */
  function FirstBit(b: seq<bool>, i: nat): (r: int)
    requires i < |b| && b[|b| - 1]
    ensures i <= r < |b| && b[r]
    ensures forall j :: i <= j < r ==> !b[j]
    decreases |b| - i
  {
    if b[i] then i else FirstBit(b, i + 1)
  }

  ghost predicate Distinct<T>(l: seq<T>) {
    forall i, j :: 0 <= i < j < |l| ==> l[i] != l[j]
  }

  /** `list_del`. */
  function Without<T(==, !new)>(l: seq<T>, x: T): (r: seq<T>)
    ensures forall y :: y in r <==> y in l && y != x
    ensures x !in l ==> r == l
    ensures l != [] && l[0] == x && x !in l[1..] ==> r == l[1..]
    ensures |r| <= |l|
  {
    if l == [] then [] else if l[0] == x then Without(l[1..], x) else [l[0]] + Without(l[1..], x)
  }

  /** `list_del_init`: the entity leaves whichever list links it. */
  function Unlink<T(==, !new)>(ls: seq<seq<T>>, x: T): (r: seq<seq<T>>)
    ensures |r| == |ls|
    ensures forall i :: 0 <= i < |ls| ==> r[i] == Without(ls[i], x)
  {
    seq(|ls|, i requires 0 <= i < |ls| => Without(ls[i], x))
  }

  lemma {:induction false} WithoutDistinct<T(!new)>(l: seq<T>, x: T)
    requires Distinct(l)
    ensures Distinct(Without(l, x))
  {
    if l != [] {
      WithoutDistinct(l[1..], x);
      assert l[0] !in l[1..] && l[0] !in Without(l[1..], x);
    }
  }
}
