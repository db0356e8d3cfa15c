/**
 Circular doubly linked lists (include/rtservice.h): the intrusive list under every queue
 of the kernel, and, with other field names, under both lists of the memory heaps.
 */
module Ring {
  import opened Sequences

  /** The two link fields of all nodes. */
  datatype Links<T> = Links(next: map<T, T>, prev: map<T, T>)

  /** The element after index `i`, going round. */
  function After<T>(q: seq<T>, i: nat): T
    requires i < |q|
  {
    if i + 1 < |q| then q[i + 1] else q[0]
  }

  ghost predicate Linked<T>(l: Links<T>, q: seq<T>, i: nat)
    requires i < |q|
  {
    && q[i] in l.next && l.next[q[i]] == After(q, i)
    && After(q, i) in l.prev && l.prev[After(q, i)] == q[i]
  }

  /** Going round by `next` visits `q`, and going round by `prev` visits it backwards. */
  ghost predicate IsRing<T>(l: Links<T>, q: seq<T>) {
    q != [] && NoDup(q) && forall i {:trigger Linked(l, q, i)} | 0 <= i < |q| :: Linked(l, q, i)
  }

  /** Every element has a successor and a predecessor on the ring. */
  lemma RingLinks<T>(l: Links<T>, q: seq<T>, i: nat)
    requires IsRing(l, q) && i < |q|
    ensures q[i] in l.next && q[i] in l.prev
    ensures l.next[q[i]] == After(q, i) && l.prev[q[i]] == if i > 0 then q[i - 1] else q[|q| - 1]
    ensures l.next[q[i]] in l.prev && l.prev[q[i]] in l.next
  {
    assert Linked(l, q, i);
    assert Linked(l, q, if i > 0 then i - 1 else |q| - 1);
  }

  /** rt_list_insert_after. */
  function InsertAfter<T(==)>(l: Links<T>, a: T, x: T): Links<T>
    requires a in l.next
  {
    var b := l.next[a];
    Links(l.next[x := b][a := x], l.prev[b := x][x := a])
  }

  /** rt_list_insert_before. */
  function InsertBefore<T(==)>(l: Links<T>, a: T, x: T): Links<T>
    requires a in l.prev
  {
    var b := l.prev[a];
    Links(l.next[b := x][x := a], l.prev[x := b][a := x])
  }

  /** The neighbours of `x` are linked to each other. */
  function Bypass<T(==)>(l: Links<T>, x: T): Links<T>
    requires x in l.next && x in l.prev
  {
    Links(l.next[l.prev[x] := l.next[x]], l.prev[l.next[x] := l.prev[x]])
  }

  /** rt_list_remove: and `x` becomes a ring of its own. */
  function Removed<T(==)>(l: Links<T>, x: T): Links<T>
    requires x in l.next && x in l.prev
  {
    var r := Bypass(l, x);
    Links(r.next[x := x], r.prev[x := x])
  }

  /** Inserting after an element puts the new node right behind it. */
  lemma InsertAfterRing<T>(l: Links<T>, q: seq<T>, i: nat, x: T)
    requires IsRing(l, q) && i < |q| && x !in q
    ensures q[i] in l.next && IsRing(InsertAfter(l, q[i], x), q[..i + 1] + [x] + q[i + 1..])
  {
    assert Linked(l, q, i);
    var l', r := InsertAfter(l, q[i], x), q[..i + 1] + [x] + q[i + 1..];
    assert forall k | 0 <= k < |r| :: r[k] == if k <= i then q[k] else if k == i + 1 then x else q[k - 1];
    forall k | 0 <= k < |r| ensures Linked(l', r, k) {
      if k <= i {
        assert Linked(l, q, k);
      } else if k > i + 1 {
        assert Linked(l, q, k - 1);
      }
    }
  }

  /** The ring with `x` before index `i`; before the first is behind the last. */
  ghost function Ahead<T>(q: seq<T>, i: nat, x: T): seq<T>
    requires i < |q|
  {
    if i == 0 then q + [x] else q[..i] + [x] + q[i..]
  }

  /** Inserting before an element is inserting after the one before it; before the head it appends. */
  lemma InsertBeforeRing<T>(l: Links<T>, q: seq<T>, i: nat, x: T)
    requires IsRing(l, q) && i < |q| && x !in q
    ensures q[i] in l.prev && IsRing(InsertBefore(l, q[i], x), Ahead(q, i, x))
  {
    RingLinks(l, q, i);
    var j := if i > 0 then i - 1 else |q| - 1;
    InsertAfterRing(l, q, j, x);
    RingLinks(l, q, j);
    var a, b := q[j], q[i];
    assert a in q && b in q;
    assert l.next[a := x][x := b] == l.next[x := b][a := x] && l.prev[x := a][b := x] == l.prev[b := x][x := a];
    assert Ahead(q, i, x) == q[..j + 1] + [x] + q[j + 1..];
  }

  /** Bypassing an element takes it out and leaves the others in order. */
  lemma BypassRing<T>(l: Links<T>, q: seq<T>, i: nat)
    requires IsRing(l, q) && 0 < i < |q|
    ensures q[i] in l.next && q[i] in l.prev && IsRing(Bypass(l, q[i]), q[..i] + q[i + 1..])
  {
    RingLinks(l, q, i);
    assert Linked(l, q, i) && Linked(l, q, i - 1);
    var l', r := Bypass(l, q[i]), q[..i] + q[i + 1..];
    assert forall k | 0 <= k < |r| :: r[k] == if k < i then q[k] else q[k + 1];
    forall k | 0 <= k < |r| ensures Linked(l', r, k) {
      if k < i {
        assert Linked(l, q, k);
      } else {
        assert Linked(l, q, k + 1);
      }
    }
  }

  lemma RemovedRing<T>(l: Links<T>, q: seq<T>, i: nat)
    requires IsRing(l, q) && 0 < i < |q|
    ensures q[i] in l.next && q[i] in l.prev
    ensures IsRing(Removed(l, q[i]), q[..i] + q[i + 1..]) && IsRing(Removed(l, q[i]), [q[i]])
  {
    BypassRing(l, q, i);
    var x, r, l' := q[i], q[..i] + q[i + 1..], Removed(l, q[i]);
    forall k | 0 <= k < |r| ensures Linked(l', r, k) {
      assert Linked(Bypass(l, x), r, k);
    }
    assert Linked(l', [x], 0);
  }
}

/** The list operations on nodes in memory. */
module RtList {
  import opened Ring

  class Lists<Node(==)> {
    var next: map<Node, Node>
    var prev: map<Node, Node>

    /** The list with head `q[0]` holds the other nodes of `q`, in this order. */
    ghost predicate Holds(q: seq<Node>)
      reads this
    {
      IsRing(Links(next, prev), q)
    }

    constructor ()
    {
      next, prev := map[], map[];
    }

    method Init(l: Node)
      modifies this
      ensures Holds([l]) && next == old(next)[l := l] && prev == old(prev)[l := l]
    {
      next, prev := next[l := l], prev[l := l];
      assert Linked(Links(next, prev), [l], 0);
    }

    method InsertAfter(l: Node, n: Node, ghost q: seq<Node>, ghost i: nat)
      requires Holds(q) && i < |q| && q[i] == l && n !in q
      modifies this
      ensures Holds(q[..i + 1] + [n] + q[i + 1..])
    {
      InsertAfterRing(Links(next, prev), q, i, n);
      RingLinks(Links(next, prev), q, i);
      prev := prev[next[l] := n];
      next := next[n := next[l]];
      next := next[l := n];
      prev := prev[n := l];
    }

    /** Before any node; with the head of a list, append to the list. */
    method InsertBefore(l: Node, n: Node, ghost q: seq<Node>, ghost i: nat)
      requires Holds(q) && i < |q| && q[i] == l && n !in q
      modifies this
      ensures Holds(Ahead(q, i, n))
    {
      InsertBeforeRing(Links(next, prev), q, i, n);
      RingLinks(Links(next, prev), q, i);
      next := next[prev[l] := n];
      prev := prev[n := prev[l]];
      prev := prev[l := n];
      next := next[n := l];
    }

    method Remove(n: Node, ghost q: seq<Node>, ghost i: nat)
      requires Holds(q) && 0 < i < |q| && q[i] == n
      modifies this
      ensures Holds(q[..i] + q[i + 1..]) && Holds([n])
    {
      RemovedRing(Links(next, prev), q, i);
      RingLinks(Links(next, prev), q, i);
      prev := prev[next[n] := prev[n]];
      next := next[prev[n] := next[n]];
      next, prev := next[n := n], prev[n := n];
    }

    method IsEmpty(l: Node, ghost q: seq<Node>) returns (empty: bool)
      requires Holds(q) && q[0] == l
      ensures empty <==> |q| == 1
    {
      RingLinks(Links(next, prev), q, 0);
      empty := next[l] == l;
    }

    method Len(l: Node, ghost q: seq<Node>) returns (len: nat)
      requires Holds(q) && q[0] == l
      ensures len == |q| - 1
    {
      len := 0;
      var p := l;
      RingLinks(Links(next, prev), q, 0);
      while next[p] != l
        invariant len < |q| && p == q[len] && p in next && next[p] == After(q, len)
        decreases |q| - len
      {
        p := next[p];
        len := len + 1;
        RingLinks(Links(next, prev), q, len);
      }
    }
  }
}
