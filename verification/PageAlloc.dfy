/**
 The page allocator under the slab allocator (rt_page_alloc and rt_page_free in src/slab.c):
 a list of free page runs, each run headed by its first page.
 */
module PageRuns {
  import opened Sequences

  /** `len` free pages from page `start` on. */
  datatype Run = Run(start: nat, len: nat) {
    function End(): nat { start + len }
  }

  ghost function Range(start: nat, len: nat): set<nat> {
    set x | Within(x, start, len) && 0 <= x < start + len
  }

  predicate Within(x: int, start: nat, len: nat) { start <= x < start + len }

  ghost function Pages(l: seq<Run>): set<nat> {
    if l == [] then {} else Range(l[0].start, l[0].len) + Pages(l[1..])
  }

  /** Sorted by address, disjoint, and maximally coalesced: there is a gap after every run. */
  ghost predicate Canonical(l: seq<Run>) {
    l == [] || (l[0].len > 0 && (|l| > 1 ==> l[0].End() < l[1].start) && Canonical(l[1..]))
  }

  /** The list begins with its lowest page, and the rest lies beyond the first run and a gap. */
  lemma {:induction false} Bounds(l: seq<Run>)
    requires Canonical(l) && l != []
    ensures l[0].start in Pages(l) && l[0].End() !in Pages(l)
    ensures forall x | x in Pages(l) :: l[0].start <= x
    ensures forall x | x in Pages(l[1..]) :: l[0].End() < x
  {
    if |l| > 1 {
      Bounds(l[1..]);
    }
  }

  /** There is one canonical list for every set of pages. */
  lemma {:induction false} CanonicalUnique(a: seq<Run>, b: seq<Run>)
    requires Canonical(a) && Canonical(b) && Pages(a) == Pages(b)
    ensures a == b
  {
    if a != [] && b != [] {
      Bounds(a);
      Bounds(b);
      FirstRunUnique(a, b);
      RestPages(a);
      RestPages(b);
      CanonicalUnique(a[1..], b[1..]);
    } else if a != [] {
      Bounds(a);
    } else if b != [] {
      Bounds(b);
    }
  }

  lemma FirstRunUnique(a: seq<Run>, b: seq<Run>)
    requires Canonical(a) && Canonical(b) && a != [] && b != [] && Pages(a) == Pages(b)
    ensures a[0] == b[0]
  {
    Bounds(a);
    Bounds(b);
    FirstRunShorter(a, b);
    FirstRunShorter(b, a);
  }

  lemma FirstRunShorter(a: seq<Run>, b: seq<Run>)
    requires Canonical(a) && Canonical(b) && a != [] && b != [] && Pages(a) == Pages(b) && a[0].start == b[0].start
    ensures a[0].len <= b[0].len
  {
    Bounds(b);
    assert Range(a[0].start, a[0].len) <= Pages(b);
  }

  lemma RestPages(l: seq<Run>)
    requires Canonical(l) && l != []
    ensures Pages(l[1..]) == Pages(l) - Range(l[0].start, l[0].len)
  {
    Bounds(l);
  }

  datatype Taken = Taken(addr: Option<nat>, list: seq<Run>)

  /** rt_page_alloc on the list: the first run that is long enough, or the front of it. */
  function Alloc(l: seq<Run>, n: nat): Taken {
    if l == [] then Taken(None, [])
    else if l[0].len > n then Taken(Some(l[0].start), [Run(l[0].start + n, l[0].len - n)] + l[1..])
    else if l[0].len == n then Taken(Some(l[0].start), l[1..])
    else
      var r := Alloc(l[1..], n);
      Taken(r.addr, [l[0]] + r.list)
  }

  /** rt_page_free on the list: join with the run before, the run after, or both, or insert. */
  function Free(l: seq<Run>, a: nat, n: nat): seq<Run> {
    if l == [] then [Run(a, n)]
    else if l[0].End() == a then
      if |l| > 1 && a + n == l[1].start then [Run(l[0].start, l[0].len + n + l[1].len)] + l[2..]
      else [Run(l[0].start, l[0].len + n)] + l[1..]
    else if l[0].start == a + n then [Run(a, n + l[0].len)] + l[1..]
    else if l[0].start > a + n then [Run(a, n)] + l
    else [l[0]] + Free(l[1..], a, n)
  }

  /** What is taken was free, is contiguous, and is all that is taken; the list stays canonical. */
  lemma {:induction false} AllocPages(l: seq<Run>, n: nat)
    requires Canonical(l) && n > 0
    ensures var r := Alloc(l, n);
      && Canonical(r.list)
      && (r.addr.Some? ==> Range(r.addr.value, n) <= Pages(l) && Pages(r.list) == Pages(l) - Range(r.addr.value, n))
      && (r.addr.None? ==> r.list == l)
      && (r.list != [] && l != [] ==> l[0].start <= r.list[0].start)
  {
    if l != [] {
      Bounds(l);
      RestPages(l);
      if l[0].len < n {
        AllocPages(l[1..], n);
        var r := Alloc(l[1..], n);
        assert ([l[0]] + r.list)[1..] == r.list;
      } else if l[0].len > n {
        var m := Run(l[0].start + n, l[0].len - n);
        assert ([m] + l[1..])[1..] == l[1..];
      }
    }
  }

  /** The pages come from the lowest run that is long enough; there is an answer if and only if there is such a run. */
  lemma {:induction false} AllocLowest(l: seq<Run>, n: nat)
    requires Canonical(l) && n > 0
    ensures Alloc(l, n).addr.None? <==> forall i | 0 <= i < |l| :: l[i].len < n
    ensures Alloc(l, n).addr.Some? ==> exists i :: 0 <= i < |l| && l[i].len >= n && Alloc(l, n).addr.value == l[i].start
                                                   && forall j | 0 <= j < i :: l[j].len < n
  {
    if l != [] && l[0].len < n {
      AllocLowest(l[1..], n);
      assert forall i | 0 < i < |l| :: l[i] == l[1..][i - 1];
      if Alloc(l, n).addr.Some? {
        var k :| 0 <= k < |l[1..]| && l[1..][k].len >= n && Alloc(l[1..], n).addr.value == l[1..][k].start
                 && forall j | 0 <= j < k :: l[1..][j].len < n;
        assert l[k + 1].len >= n && Alloc(l, n).addr.value == l[k + 1].start;
      }
    }
  }

  lemma {:induction false} FreeFront(l: seq<Run>, a: nat, n: nat)
    requires Canonical(l) && n > 0 && Range(a, n) !! Pages(l) && l != []
    requires l[0].End() == a || l[0].start >= a + n
    ensures Canonical(Free(l, a, n)) && Pages(Free(l, a, n)) == Pages(l) + Range(a, n)
    ensures forall x | x in Pages(Free(l, a, n)) :: a <= x || l[0].start <= x
  {
    var r := Free(l, a, n);
    Bounds(l);
    if l[0].End() == a && |l| > 1 && a + n == l[1].start {
      assert r[1..] == l[2..] == l[1..][1..];
      assert Pages(l[1..]) == Range(l[1].start, l[1].len) + Pages(l[2..]);
      assert Range(l[0].start, l[0].len + n + l[1].len) ==
        Range(l[0].start, l[0].len) + Range(a, n) + Range(l[1].start, l[1].len);
    } else if l[0].End() == a {
      assert r[1..] == l[1..];
      if |l| > 1 {
        Bounds(l[1..]);
        assert a in Range(a, n) && l[1].start in Pages(l[1..]);
        GapAfter(l, a, n);
      }
      assert Range(l[0].start, l[0].len + n) == Range(l[0].start, l[0].len) + Range(a, n);
    } else if l[0].start == a + n {
      assert r[1..] == l[1..];
      assert Range(a, n + l[0].len) == Range(a, n) + Range(l[0].start, l[0].len);
    } else {
      assert r[1..] == l;
    }
  }

  /** Pages that follow the first run without overlap end before the next run begins. */
  lemma GapAfter(l: seq<Run>, a: nat, n: nat)
    requires Canonical(l) && |l| > 1 && n > 0 && Range(a, n) !! Pages(l) && l[0].End() == a
    ensures a + n <= l[1].start
  {
    Bounds(l);
    Bounds(l[1..]);
    assert l[1].start !in Range(a, n);
  }

  /** Freeing adds exactly the pages freed and keeps the list canonical. */
  lemma {:induction false} FreePages(l: seq<Run>, a: nat, n: nat)
    requires Canonical(l) && n > 0 && Range(a, n) !! Pages(l)
    ensures Canonical(Free(l, a, n)) && Pages(Free(l, a, n)) == Pages(l) + Range(a, n)
  {
    if l != [] {
      if l[0].End() == a || l[0].start >= a + n {
        FreeFront(l, a, n);
      } else {
        FreeLater(l, a, n);
        RestPages(l);
        FreePages(l[1..], a, n);
        var r := Free(l[1..], a, n);
        Bounds(r);
        Bounds(l);
        assert ([l[0]] + r)[1..] == r;
        assert r[0].start in Pages(r);
      }
    }
  }

  /** Pages that do not touch the first run, and do not lie before it, lie beyond it: the assertion in rt_page_free. */
  lemma FreeLater(l: seq<Run>, a: nat, n: nat)
    requires Canonical(l) && n > 0 && Range(a, n) !! Pages(l) && l != [] && l[0].End() != a && l[0].start < a + n
    ensures l[0].End() < a
  {
    Bounds(l);
    assert a in Range(a, n) && l[0].start !in Range(a, n);
    assert a !in Range(l[0].start, l[0].len);
  }

  /** Freeing what was just allocated restores the list, run by run. */
  lemma FreeUndoesAlloc(l: seq<Run>, n: nat)
    requires Canonical(l) && n > 0 && Alloc(l, n).addr.Some?
    ensures Free(Alloc(l, n).list, Alloc(l, n).addr.value, n) == l
  {
    var r := Alloc(l, n);
    AllocPages(l, n);
    FreePages(r.list, r.addr.value, n);
    CanonicalUnique(Free(r.list, r.addr.value, n), l);
  }

  lemma FreeTwice(l: seq<Run>, a: nat, n: nat, b: nat, m: nat) returns (r: seq<Run>)
    requires Canonical(l) && n > 0 && m > 0
    requires Range(a, n) !! Pages(l) && Range(b, m) !! Pages(l) && Range(a, n) !! Range(b, m)
    ensures r == Free(Free(l, a, n), b, m) && Canonical(r) && Pages(r) == Pages(l) + Range(a, n) + Range(b, m)
  {
    FreePages(l, a, n);
    FreePages(Free(l, a, n), b, m);
    r := Free(Free(l, a, n), b, m);
  }

  /** The order in which ranges are freed does not matter. */
  lemma FreeCommutes(l: seq<Run>, a: nat, n: nat, b: nat, m: nat)
    requires Canonical(l) && n > 0 && m > 0
    requires Range(a, n) !! Pages(l) && Range(b, m) !! Pages(l) && Range(a, n) !! Range(b, m)
    ensures Free(Free(l, a, n), b, m) == Free(Free(l, b, m), a, n)
  {
    var x := FreeTwice(l, a, n, b, m);
    var y := FreeTwice(l, b, m, a, n);
    CanonicalUnique(x, y);
  }
}

/** rt_page_list: a chain through the first pages of the runs. */
module PageList {
  import opened Sequences
  import opened PageRuns

  /** The first page of run `i`, or RT_NULL after the last one. */
  function StartAt(l: seq<Run>, i: nat): Option<nat> {
    if i < |l| then Some(l[i].start) else None
  }

  type Links = map<nat, Option<nat>>
  type Counts = map<nat, nat>

  ghost predicate NodeOk(next: Links, page: Counts, l: seq<Run>, i: nat)
    requires i < |l|
  {
    var b := l[i].start;
    b in next && b in page && page[b] == l[i].len && next[b] == StartAt(l, i + 1)
  }

  /** The headers in memory hold the list `l`. */
  ghost predicate Linked(next: Links, page: Counts, head: Option<nat>, l: seq<Run>) {
    head == StartAt(l, 0) && forall i | 0 <= i < |l| :: NodeOk(next, page, l, i)
  }

  ghost predicate Distinct(l: seq<Run>) {
    forall i, j | 0 <= i < j < |l| :: l[i].start != l[j].start
  }

  lemma {:induction false} CanonicalAt(l: seq<Run>, i: nat, j: nat)
    requires Canonical(l) && i < j < |l|
    ensures l[i].End() < l[j].start && l[i].len > 0
    decreases j
  {
    if i > 0 {
      CanonicalAt(l[1..], i - 1, j - 1);
    } else {
      Bounds(l);
      LaterPages(l[1..], j - 1);
    }
  }

  lemma {:induction false} LaterPages(l: seq<Run>, j: nat)
    requires Canonical(l) && j < |l|
    ensures l[j].start in Pages(l) && l[j].len > 0
  {
    if j > 0 {
      LaterPages(l[1..], j - 1);
    } else {
      Bounds(l);
    }
  }

  lemma CanonicalDistinct(l: seq<Run>)
    requires Canonical(l)
    ensures Distinct(l)
  {
    forall i, j | 0 <= i < j < |l| ensures l[i].start != l[j].start {
      CanonicalAt(l, i, j);
    }
  }

  /** Runs `i` up to `k` replaced by `m`: its header written, and the link before it changed. */
  lemma Replaced(next: Links, page: Counts, head: Option<nat>, l: seq<Run>, i: nat, k: nat, m: Run, next': Links,
                 page': Counts, head': Option<nat>)
    requires Linked(next, page, head, l) && i <= k <= |l| && Distinct(l[..i] + [m] + l[k..])
    requires page' == page[m.start := m.len]
    requires if i == 0 then head' == Some(m.start) && next' == next[m.start := StartAt(l, k)]
             else head' == head && next' == next[m.start := StartAt(l, k)][l[i - 1].start := Some(m.start)]
    ensures Linked(next', page', head', l[..i] + [m] + l[k..])
  {
    var r := l[..i] + [m] + l[k..];
    assert r[i] == m && (i > 0 ==> r[i - 1] == l[i - 1]);
    forall j | 0 <= j < |r| ensures NodeOk(next', page', r, j) {
      if j < i {
        assert NodeOk(next, page, l, j) && r[j] == l[j];
      } else if j > i {
        assert NodeOk(next, page, l, k + (j - i - 1)) && r[j] == l[k + (j - i - 1)];
      }
    }
  }

  /** The list after run `i` was cut short. */
  lemma Splitting(l: seq<Run>, n: nat, i: nat) returns (r: seq<Run>)
    requires Canonical(l) && TooShort(l, n, i) && i < |l| && l[i].len > n > 0
    ensures Alloc(l, n) == Taken(Some(l[i].start), r) && Canonical(r) && Distinct(r)
    ensures r == l[..i] + [Run(l[i].start + n, l[i].len - n)] + l[i + 1..]
  {
    AllocAt(l, n, i);
    AllocPages(l, n);
    r := Alloc(l, n).list;
    CanonicalDistinct(r);
  }

  /** Run `i` removed. */
  lemma Removed(next: Links, page: Counts, head: Option<nat>, l: seq<Run>, i: nat, next': Links, head': Option<nat>)
    requires Linked(next, page, head, l) && i < |l| && Distinct(l)
    requires if i == 0 then head' == StartAt(l, 1) && next' == next
             else head' == head && next' == next[l[i - 1].start := StartAt(l, i + 1)]
    ensures Linked(next', page, head', l[..i] + l[i + 1..])
  {
    var r := l[..i] + l[i + 1..];
    forall j | 0 <= j < |r| ensures NodeOk(next', page, r, j) {
      if j < i {
        assert NodeOk(next, page, l, j) && r[j] == l[j];
      } else {
        assert NodeOk(next, page, l, j + 1) && r[j] == l[j + 1];
      }
    }
  }

  /** The first `i` runs are too short. */
  ghost predicate TooShort(l: seq<Run>, n: nat, i: nat) {
    i <= |l| && forall j | 0 <= j < i :: l[j].len < n
  }

  lemma AllocStep(l: seq<Run>, n: nat)
    requires l != [] && l[0].len < n
    ensures Alloc(l, n) == Taken(Alloc(l[1..], n).addr, [l[0]] + Alloc(l[1..], n).list)
  {
  }

  lemma {:induction false} AllocSkips(l: seq<Run>, n: nat, i: nat)
    requires TooShort(l, n, i)
    ensures Alloc(l, n) == Taken(Alloc(l[i..], n).addr, l[..i] + Alloc(l[i..], n).list)
  {
    if i > 0 {
      AllocStep(l, n);
      var rest := l[1..];
      AllocSkips(rest, n, i - 1);
      assert rest[i - 1..] == l[i..];
      var tail := Alloc(l[i..], n).list;
      assert [l[0]] + (rest[..i - 1] + tail) == l[..i] + tail;
    } else {
      assert l[0..] == l;
    }
  }

  /** What Alloc does once it has come to run `i`. */
  lemma AllocAt(l: seq<Run>, n: nat, i: nat)
    requires TooShort(l, n, i)
    ensures i == |l| ==> Alloc(l, n) == Taken(None, l)
    ensures i < |l| && l[i].len == n ==> Alloc(l, n) == Taken(Some(l[i].start), l[..i] + l[i + 1..])
    ensures i < |l| && l[i].len > n ==>
      Alloc(l, n) == Taken(Some(l[i].start), l[..i] + [Run(l[i].start + n, l[i].len - n)] + l[i + 1..])
  {
    AllocSkips(l, n, i);
    var rest := l[i..];
    if i == |l| {
      assert rest == [] && l[..i] == l;
    } else {
      assert rest[0] == l[i] && rest[1..] == l[i + 1..];
      if l[i].len > n {
        var m := Run(l[i].start + n, l[i].len - n);
        assert l[..i] + ([m] + l[i + 1..]) == l[..i] + [m] + l[i + 1..];
      }
    }
  }

  /** rt_page_free walks past run `b`. */
  predicate Passed(b: Run, a: nat, n: nat) {
    b.End() != a && b.start != a + n && b.start <= a + n
  }

  ghost predicate AllPassed(l: seq<Run>, a: nat, n: nat, i: nat) {
    i <= |l| && forall j | 0 <= j < i :: Passed(l[j], a, n)
  }

  lemma FreeStep(l: seq<Run>, a: nat, n: nat)
    requires l != [] && Passed(l[0], a, n)
    ensures Free(l, a, n) == [l[0]] + Free(l[1..], a, n)
  {
  }

  lemma Prepended(l: seq<Run>, i: nat, f: seq<Run>)
    requires 0 < i <= |l|
    ensures l[1..][i - 1..] == l[i..] && [l[0]] + (l[1..][..i - 1] + f) == l[..i] + f
  {
    assert l[..i] == [l[0]] + l[1..][..i - 1];
  }

  lemma {:induction false} FreeSkips(l: seq<Run>, a: nat, n: nat, i: nat) returns (f: seq<Run>)
    requires AllPassed(l, a, n, i)
    ensures f == Free(l[i..], a, n) && Free(l, a, n) == l[..i] + f
  {
    if i > 0 {
      FreeStep(l, a, n);
      f := FreeSkips(l[1..], a, n, i - 1);
      Prepended(l, i, f);
    } else {
      assert l[0..] == l;
      f := Free(l, a, n);
    }
  }

  /** What Free does once it has come to run `i`. */
  lemma FreeAt(l: seq<Run>, a: nat, n: nat, i: nat) returns (k: nat, m: Run)
    requires AllPassed(l, a, n, i) && (i < |l| ==> !Passed(l[i], a, n))
    ensures i <= k <= |l| && Free(l, a, n) == l[..i] + [m] + l[k..]
    ensures i == |l| || (l[i].End() != a && l[i].start != a + n) ==> m == Run(a, n) && k == i
    ensures i < |l| && l[i].End() != a && l[i].start == a + n ==> m == Run(a, n + l[i].len) && k == i + 1
    ensures i < |l| && l[i].End() == a ==>
      if StartAt(l, i + 1) == Some(a + n) then k == i + 2 && m == Run(l[i].start, l[i].len + n + l[i + 1].len)
      else k == i + 1 && m == Run(l[i].start, l[i].len + n)
  {
    var f := FreeSkips(l, a, n, i);
    var rest := l[i..];
    k, m := i, Run(a, n);
    if i < |l| {
      assert rest[0] == l[i] && rest[1..] == l[i + 1..];
      if l[i].End() == a {
        if i + 1 < |l| && a + n == l[i + 1].start {
          assert rest[1] == l[i + 1] && rest[2..] == l[i + 2..];
          k, m := i + 2, Run(l[i].start, l[i].len + n + l[i + 1].len);
        } else {
          k, m := i + 1, Run(l[i].start, l[i].len + n);
        }
      } else if l[i].start == a + n {
        k, m := i + 1, Run(a, n + l[i].len);
      }
    }
    assert Free(rest, a, n) == [m] + l[k..];
    assert l[..i] + ([m] + l[k..]) == l[..i] + [m] + l[k..];
  }

  class Allocator {
    var head: Option<nat>          // rt_page_list
    var next: Links                // by page: the header fields of struct rt_page_head
    var page: Counts

    ghost predicate Holds(l: seq<Run>)
      reads this
    {
      Canonical(l) && Linked(next, page, head, l)
    }

    constructor ()
      ensures Holds([])
    {
      head, next, page := None, map[], map[];
    }

    /** `*prev = x`, where `prev` is the list head or the link of a run. */
    method SetLink(prev: Option<nat>, x: Option<nat>)
      modifies `head, `next
      ensures if prev.None? then head == x && next == old(next)
              else head == old(head) && next == old(next)[prev.value := x]
    {
      if prev.None? {
        head := x;
      } else {
        next := next[prev.value := x];
      }
    }

    method PageAlloc(n: nat, ghost l: seq<Run>) returns (addr: Option<nat>)
      requires Holds(l)
      modifies this
      ensures n == 0 ==> addr == None && Holds(l)
      ensures n > 0 ==> addr == Alloc(l, n).addr && Holds(Alloc(l, n).list)
    {
      if n == 0 {
        return None;
      }
      var prev: Option<nat> := None;
      addr := head;
      ghost var i := 0;
      while addr.Some?
        invariant Holds(l) && TooShort(l, n, i) && addr == StartAt(l, i)
        invariant prev == if i == 0 then None else Some(l[i - 1].start)
        decreases |l| - i
      {
        var b := addr.value;
        assert NodeOk(next, page, l, i);
        if page[b] > n {
          SplitRun(prev, b, n, l, i);
          return;
        }
        if page[b] == n {
          RemoveRun(prev, b, n, l, i);
          return;
        }
        prev, addr, i := Some(b), next[b], i + 1;
      }
      AllocAt(l, n, i);
    }

    method SplitRun(prev: Option<nat>, b: nat, n: nat, ghost l: seq<Run>, ghost i: nat)
      requires Holds(l) && TooShort(l, n, i) && i < |l| && b == l[i].start && l[i].len > n > 0
      requires prev == if i == 0 then None else Some(l[i - 1].start)
      modifies this
      ensures Alloc(l, n).addr == Some(b) && Holds(Alloc(l, n).list)
    {
      ghost var r := Splitting(l, n, i);
      assert NodeOk(next, page, l, i);
      var m := b + n;
      next := next[m := next[b]];
      page := page[m := page[b] - n];
      SetLink(prev, Some(m));
      Replaced(old(next), old(page), old(head), l, i, i + 1, Run(m, l[i].len - n), next, page, head);
    }

    method RemoveRun(prev: Option<nat>, b: nat, n: nat, ghost l: seq<Run>, ghost i: nat)
      requires Holds(l) && TooShort(l, n, i) && i < |l| && b == l[i].start && l[i].len == n > 0
      requires prev == if i == 0 then None else Some(l[i - 1].start)
      modifies this
      ensures Alloc(l, n).addr == Some(b) && Holds(Alloc(l, n).list)
    {
      AllocAt(l, n, i);
      AllocPages(l, n);
      CanonicalDistinct(l);
      assert NodeOk(next, page, l, i);
      SetLink(prev, next[b]);
      Removed(old(next), old(page), old(head), l, i, next, head);
    }

    /** Join the pages to the run `b` they follow, and to the next run if they reach it. */
    method JoinBehind(b: nat, n: nat, ghost l: seq<Run>, ghost i: nat, ghost a: nat)
      requires Holds(l) && i < |l| && l[i].start == b && l[i].End() == a && n > 0 && Range(a, n) !! Pages(l)
      requires AllPassed(l, a, n, i)
      modifies this
      ensures Holds(Free(l, a, n))
    {
      ghost var k, m := FreeAt(l, a, n, i);
      FreePages(l, a, n);
      CanonicalDistinct(Free(l, a, n));
      assert NodeOk(next, page, l, i);
      page := page[b := page[b] + n];
      if next[b] == Some(b + page[b]) {
        assert NodeOk(old(next), old(page), l, i + 1);
        var c := next[b].value;
        page := page[b := page[b] + page[c]];
        next := next[b := next[c]];
      }
      Kept(old(next), old(page), head, l, i, k, m, next, page);
    }

    /** Put a run at `a` before run `i`, or in its place if `joins`. */
    method PutRun(prev: Option<nat>, p: Option<nat>, a: nat, n: nat, joins: bool, ghost l: seq<Run>, ghost i: nat)
      requires Holds(l) && AllPassed(l, a, n, i) && n > 0 && Range(a, n) !! Pages(l) && p == StartAt(l, i)
      requires i < |l| ==> l[i].End() != a && a + n <= l[i].start
      requires joins <==> i < |l| && l[i].start == a + n
      requires prev == if i == 0 then None else Some(l[i - 1].start)
      modifies this
      ensures Holds(Free(l, a, n))
    {
      ghost var k, m := FreeAt(l, a, n, i);
      FreePages(l, a, n);
      CanonicalDistinct(Free(l, a, n));
      if joins {
        assert NodeOk(next, page, l, i);
        page := page[a := page[p.value] + n];
        next := next[a := next[p.value]];
      } else {
        page := page[a := n];
        next := next[a := p];
      }
      SetLink(prev, Some(a));
      Replaced(old(next), old(page), old(head), l, i, k, m, next, page, head);
    }

    method PageFree(a: nat, n: nat, ghost l: seq<Run>)
      requires Holds(l) && n > 0 && Range(a, n) !! Pages(l)
      modifies this
      ensures Holds(Free(l, a, n))
    {
      var prev: Option<nat> := None;
      var p := head;
      ghost var i := 0;
      while p.Some?
        invariant Holds(l) && AllPassed(l, a, n, i) && p == StartAt(l, i)
        invariant prev == if i == 0 then None else Some(l[i - 1].start)
        decreases |l| - i
      {
        var b := p.value;
        assert NodeOk(next, page, l, i);
        if b + page[b] == a {
          JoinBehind(b, n, l, i, a);
          return;
        }
        if b == a + n {
          PutRun(prev, p, a, n, true, l, i);
          return;
        }
        if b > a + n {
          break;
        }
        prev, p, i := Some(b), next[b], i + 1;
      }
      PutRun(prev, p, a, n, false, l, i);
    }
  }

  /** Runs `i` up to `k` replaced by a longer run with the same first page. */
  lemma Kept(next: Links, page: Counts, head: Option<nat>, l: seq<Run>, i: nat, k: nat, m: Run, next': Links,
             page': Counts)
    requires Linked(next, page, head, l) && i < k <= |l| && m.start == l[i].start && Distinct(l[..i] + [m] + l[k..])
    requires page' == page[m.start := m.len] && m.start in next && next' == next[m.start := StartAt(l, k)]
    ensures Linked(next', page', head, l[..i] + [m] + l[k..])
  {
    var r := l[..i] + [m] + l[k..];
    forall j | 0 <= j < |r| ensures NodeOk(next', page', r, j) {
      assert r[i] == m;
      if j < i {
        assert NodeOk(next, page, l, j) && r[j] == l[j];
      } else if j > i {
        assert NodeOk(next, page, l, k + (j - i - 1)) && r[j] == l[k + (j - i - 1)];
      }
    }
  }
}
