/**
 Sequences as lists without repetition: what the wait lists, ready lists, timer rows, block
 lists and zone lists of the kernel have in common.
 */
module Sequences {
  datatype Option<T> = None | Some(value: T)

  /** No element occurs twice. */
  ghost predicate NoDup<T>(q: seq<T>) {
    forall i, j | 0 <= i < j < |q| :: q[i] != q[j]
  }

  function IndexOf(q: seq<nat>, x: nat): (i: nat)
    requires x in q
    ensures i < |q| && q[i] == x
  {
    if q[0] == x then 0 else 1 + IndexOf(q[1..], x)
  }

  /** It is the first place of `x`. */
  lemma {:induction false} IndexWithin(q: seq<nat>, x: nat, i: nat)
    requires i <= |q| && x in q[..i]
    ensures x in q && IndexOf(q, x) < i
  {
    assert q[..i] == [q[0]] + q[1..][..i - 1];
    if q[0] != x {
      IndexWithin(q[1..], x, i - 1);
    }
  }

  /** rt_list_remove, seen from the list: `x` leaves it. */
  function Remove(q: seq<nat>, x: nat): (r: seq<nat>)
    ensures |r| == if x in q then |q| - 1 else |q|
  {
    if x in q then Cut(q, IndexOf(q, x)) else q
  }

  /** The list without its element at `i`. */
  function Cut(q: seq<nat>, i: nat): (r: seq<nat>)
    requires i < |q|
    ensures |r| == |q| - 1 && forall k | 0 <= k < |r| :: r[k] == if k < i then q[k] else q[k + 1]
  {
    q[..i] + q[i + 1..]
  }

  lemma RemoveElements(q: seq<nat>, x: nat)
    requires NoDup(q)
    ensures forall y :: y in Remove(q, x) <==> y in q && y != x
  {
    if x in q {
      var i := IndexOf(q, x);
      assert q == q[..i] + [x] + q[i + 1..];
      assert x !in q[..i];
      forall k | i < k < |q| ensures q[k] != x {
        assert q[i] != q[k];
      }
    }
  }

  /** Taking an element out leaves the others distinct. */
  lemma RemoveDistinct(q: seq<nat>, x: nat)
    requires NoDup(q)
    ensures NoDup(Remove(q, x)) && forall y :: y in Remove(q, x) <==> y in q && y != x
  {
    RemoveElements(q, x);
  }

  /** The first element is not among the others. */
  lemma TailDistinct(q: seq<nat>)
    requires q != [] && NoDup(q)
    ensures NoDup(q[1..]) && q[0] !in q[1..] && forall y :: y in q <==> y == q[0] || y in q[1..]
  {
    assert q == [q[0]] + q[1..];
  }

  /** The bytes from `lo` to `hi` are the same before and after. */
  ghost predicate SameData(before: seq<int>, after: seq<int>, lo: nat, hi: nat) {
    lo <= hi <= |before| && hi <= |after| ==> before[lo..hi] == after[lo..hi]
  }

  /** `a` is `b` with some elements left out. */
  ghost predicate Subsequence(a: seq<nat>, b: seq<nat>) {
    if a == [] then true
    else if b == [] then false
    else if a[0] == b[0] then Subsequence(a[1..], b[1..])
    else Subsequence(a, b[1..])
  }
}
