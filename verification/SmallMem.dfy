/**
 The block chain of the small-memory allocator (src/mem.c): headers at offsets from
 heap_ptr, linked to their neighbours. The memory is a map from offsets to headers.
 Headers swallowed by a merge stay in memory as garbage; `live` is the set of offsets
 that are block headers now.
 */
module HeapChain {
  import opened Align

  datatype Header = Header(used: bool, next: nat, prev: nat)
  type Memory = map<nat, Header>

  /** `unit` is RT_ALIGN_SIZE, `hdr` SIZEOF_STRUCT_MEM, `min` MIN_SIZE, `size` mem_size_aligned. */
  datatype Config = Config(unit: nat, hdr: nat, min: nat, size: nat) {
    predicate Ok() {
      && unit > 0 && hdr > 0 && min > 0 && hdr % unit == 0 && size % unit == 0
      && MinAligned() <= size
    }
    function MinAligned(): nat
      requires unit > 0
    {
      Up(min, unit)
    }
    function End(): nat { size + hdr }
    predicate Aligned(b: nat) { unit > 0 && b % unit == 0 }
  }

  ghost predicate Nothing(live: set<nat>, a: nat, b: nat) {
    forall x | x in live :: x <= a || b <= x
  }

  ghost predicate GoodBlock(c: Config, m: Memory, live: set<nat>, b: nat)
    requires live <= m.Keys && b in live
  {
    var n := m[b].next;
    && n in live && b + c.hdr < n
    && Nothing(live, b, n)
    && (n != c.End() ==> m[n].prev == b)
  }

  /** The blocks tile the heap from offset 0 to the end block, in both directions. */
  ghost predicate Tiled(c: Config, m: Memory, live: set<nat>) {
    && c.Ok()
    && live <= m.Keys && 0 in live && c.End() in live
    && (forall b | b in live :: b <= c.End())
    && (forall b {:trigger c.Aligned(b)} | b in live :: c.Aligned(b))
    && (forall b {:trigger GoodBlock(c, m, live, b)} | b in live && b != c.End() :: GoodBlock(c, m, live, b))
    && m[0].prev == 0
    && m[c.End()].used && m[c.End()].next == c.End()
  }

  /** No two neighbours are both free. The end block is never free. */
  ghost predicate Coalesced(c: Config, m: Memory, live: set<nat>)
    requires Tiled(c, m, live)
  {
    forall b {:trigger GoodBlock(c, m, live, b)} | b in live && b != c.End() ::
      GoodBlock(c, m, live, b) && (m[b].used || m[m[b].next].used)
  }

  /** The sum of the extents, header included, of the used blocks from `p` on. */
  ghost function UsedFrom(c: Config, m: Memory, live: set<nat>, p: nat): nat
    requires Tiled(c, m, live) && p in live
    decreases c.End() - p
  {
    if p == c.End() then 0
    else
      assert GoodBlock(c, m, live, p);
      (if m[p].used then m[p].next - p else 0) + UsedFrom(c, m, live, m[p].next)
  }

  /** The two chains have the same blocks, with the same extents and marks, in [lo, hi). */
  ghost predicate SameBlocks(m: Memory, live: set<nat>, m': Memory, live': set<nat>, lo: nat, hi: nat)
    requires live <= m.Keys && live' <= m'.Keys
  {
    && (forall b | lo <= b < hi :: b in live <==> b in live')
    && (forall b | lo <= b < hi && b in live && b in live' :: m[b].next == m'[b].next && m[b].used == m'[b].used)
  }

  lemma {:induction false} UsedBetween(c: Config, m: Memory, live: set<nat>, m': Memory, live': set<nat>, p: nat,
                                       q: nat)
    requires Tiled(c, m, live) && Tiled(c, m', live')
    requires p in live && p in live' && q in live && q in live' && p <= q
    requires SameBlocks(m, live, m', live', p, q)
    ensures UsedFrom(c, m, live, p) - UsedFrom(c, m, live, q) == UsedFrom(c, m', live', p) - UsedFrom(c, m', live', q)
    decreases q - p
  {
    if p < q {
      assert GoodBlock(c, m, live, p) && GoodBlock(c, m', live', p);
      UsedBetween(c, m, live, m', live', m[p].next, q);
    }
  }

  lemma MarkTiled(c: Config, m: Memory, live: set<nat>, b: nat, used: bool)
    requires Tiled(c, m, live) && b in live && b != c.End()
    ensures Tiled(c, m[b := m[b].(used := used)], live)
  {
    var m' := m[b := m[b].(used := used)];
    forall x | x in live && x != c.End() ensures GoodBlock(c, m', live, x) {
      assert GoodBlock(c, m, live, x);
    }
  }

  lemma MarkUsed(c: Config, m: Memory, live: set<nat>, b: nat, used: bool)
    requires Tiled(c, m, live) && b in live && b != c.End()
    requires Tiled(c, m[b := m[b].(used := used)], live)
    ensures UsedFrom(c, m[b := m[b].(used := used)], live, 0)
         == UsedFrom(c, m, live, 0) - (if m[b].used then m[b].next - b else 0) + (if used then m[b].next - b else 0)
  {
    var m' := m[b := m[b].(used := used)];
    assert GoodBlock(c, m, live, b);
    UsedBetween(c, m, live, m', live, 0, b);
    UsedBetween(c, m, live, m', live, m[b].next, c.End());
  }

  /** The memory after a new free header at `q` cuts the block at `p` in two. */
  function Split(c: Config, m: Memory, p: nat, q: nat): (r: Memory)
    requires p in m && m[p].next in m
  {
    var n := m[p].next;
    var a := m[q := Header(false, n, p)][p := m[p].(next := q)];
    if n != c.End() && n in a then a[n := a[n].(prev := q)] else a
  }

  ghost predicate Splits(c: Config, m: Memory, live: set<nat>, p: nat, q: nat) {
    && Tiled(c, m, live) && p in live && p != c.End()
    && p + c.hdr < q && q + c.hdr < m[p].next && m[p].next in live && c.Aligned(q)
  }

  lemma SplitGood(c: Config, m: Memory, live: set<nat>, p: nat, q: nat, b: nat)
    requires Splits(c, m, live, p, q) && b in live + {q} && b != c.End()
    ensures q !in live
    ensures live + {q} <= Split(c, m, p, q).Keys
    ensures GoodBlock(c, Split(c, m, p, q), live + {q}, b)
  {
    assert GoodBlock(c, m, live, p);
    if b != q {
      assert GoodBlock(c, m, live, b);
    }
  }

  lemma SplitTiled(c: Config, m: Memory, live: set<nat>, p: nat, q: nat)
    requires Splits(c, m, live, p, q)
    ensures q !in live
    ensures Tiled(c, Split(c, m, p, q), live + {q})
  {
    assert GoodBlock(c, m, live, p);
    var r := Split(c, m, p, q);
    var l := live + {q};
    assert l <= r.Keys;
    forall b | b in l ensures c.Aligned(b) && b <= c.End() {
      assert b in live || b == q;
    }
    forall b | b in l && b != c.End() ensures GoodBlock(c, r, l, b) {
      SplitGood(c, m, live, p, q, b);
    }
  }

  lemma SplitUsed(c: Config, m: Memory, live: set<nat>, p: nat, q: nat)
    requires Splits(c, m, live, p, q)
    requires Tiled(c, Split(c, m, p, q), live + {q})
    ensures UsedFrom(c, Split(c, m, p, q), live + {q}, 0)
         == UsedFrom(c, m, live, 0) - (if m[p].used then m[p].next - q else 0)
  {
    SplitTiled(c, m, live, p, q);
    var r := Split(c, m, p, q);
    var l := live + {q};
    var n := m[p].next;
    assert GoodBlock(c, m, live, p);
    UsedBetween(c, m, live, r, l, 0, p);
    UsedBetween(c, m, live, r, l, n, c.End());
    assert UsedFrom(c, r, l, q) == UsedFrom(c, r, l, n);
  }

  /** The memory after the block at `p` swallows its successor. */
  function Join(m: Memory, p: nat): (r: Memory)
    requires p in m && m[p].next in m && m[m[p].next].next in m
  {
    var n := m[m[p].next].next;
    var a := m[p := m[p].(next := n)];
    a[n := a[n].(prev := p)]
  }

  ghost predicate Joins(c: Config, m: Memory, live: set<nat>, p: nat) {
    && Tiled(c, m, live) && p in live && p != c.End()
    && m[p].next in live && m[p].next != c.End() && m[m[p].next].next in live
  }

  lemma JoinGood(c: Config, m: Memory, live: set<nat>, p: nat, b: nat)
    requires Joins(c, m, live, p) && b in live && b != m[p].next && b != c.End()
    ensures live - {m[p].next} <= Join(m, p).Keys
    ensures GoodBlock(c, Join(m, p), live - {m[p].next}, b)
  {
    assert GoodBlock(c, m, live, p) && GoodBlock(c, m, live, m[p].next) && GoodBlock(c, m, live, b);
  }

  lemma JoinTiled(c: Config, m: Memory, live: set<nat>, p: nat)
    requires Joins(c, m, live, p)
    ensures p < m[p].next < m[m[p].next].next
    ensures Tiled(c, Join(m, p), live - {m[p].next})
  {
    var d := m[p].next;
    assert GoodBlock(c, m, live, p) && GoodBlock(c, m, live, d);
    forall b | b in live - {d} && b != c.End()
      ensures live - {d} <= Join(m, p).Keys && GoodBlock(c, Join(m, p), live - {d}, b)
    {
      JoinGood(c, m, live, p, b);
    }
  }

  lemma JoinUsed(c: Config, m: Memory, live: set<nat>, p: nat)
    requires Joins(c, m, live, p) && !m[p].used && !m[m[p].next].used
    requires Tiled(c, Join(m, p), live - {m[p].next})
    ensures UsedFrom(c, Join(m, p), live - {m[p].next}, 0) == UsedFrom(c, m, live, 0)
  {
    JoinTiled(c, m, live, p);
    var d := m[p].next;
    var n := m[d].next;
    var r := Join(m, p);
    var l := live - {d};
    UsedBetween(c, m, live, r, l, 0, p);
    UsedBetween(c, m, live, r, l, n, c.End());
    assert UsedFrom(c, m, live, p) == UsedFrom(c, m, live, d);
  }

  /** The data of two different blocks, and the data of one and the header of another, never overlap. */
  lemma BlocksDisjoint(c: Config, m: Memory, live: set<nat>, a: nat, b: nat)
    requires Tiled(c, m, live) && a in live && b in live && a != b && a != c.End() && b != c.End()
    ensures m[a].next <= b || m[b].next <= a
    ensures a + c.hdr < m[a].next <= c.End()
  {
    assert GoodBlock(c, m, live, a) && GoodBlock(c, m, live, b);
  }
}

/** rt_malloc, rt_realloc and rt_free over the block chain. */
module SmallHeap {
  import opened Sequences
  import opened Clients
  import opened Align
  import opened HeapChain

  /** The allocations a heap holds: each used block, with the offset its data ends at. */
  ghost function Allocated(c: Config, m: Memory, live: set<nat>): (a: map<nat, nat>)
    requires live <= m.Keys
  {
    map b | b in live && b != c.End() && m[b].used :: m[b].next
  }

  /** rt_malloc's test of one block: free, large enough, and below the search bound. */
  ghost predicate Fits(c: Config, m: Memory, live: set<nat>, b: nat, size: nat)
    requires live <= m.Keys
  {
    b in live && b + size < c.size && !m[b].used && b + c.hdr + size <= m[b].next
  }

  /** `b` is the lowest block from `from` on that fits. */
  ghost predicate FirstFit(c: Config, m: Memory, live: set<nat>, from: nat, b: nat, size: nat)
    requires live <= m.Keys
  {
    from <= b && Fits(c, m, live, b, size) && forall x | from <= x < b :: !Fits(c, m, live, x, size)
  }

  ghost predicate NoFit(c: Config, m: Memory, live: set<nat>, from: nat, size: nat)
    requires live <= m.Keys
  {
    forall x | from <= x :: !Fits(c, m, live, x, size)
  }

  /**
   Block `b` has become an allocation of `want` bytes: cut off exactly behind them, with one free block for all
   the rest, if that leaves room for a header and the least block; else as a whole. Nothing else has changed.
   */
  ghost predicate Carved(c: Config, m: Memory, live: set<nat>, m': Memory, live': set<nat>, b: nat, want: nat)
    requires c.Ok() && live <= m.Keys && live' <= m'.Keys
  {
    var end := b + c.hdr + want;
    && b in live && b in live' && m'[b].used
    && (if end + c.hdr + c.MinAligned() <= m[b].next then
          m'[b].next == end && live' == live + {end} && !m'[end].used && m'[end].next == m[b].next
        else
          m'[b].next == m[b].next && live' == live)
    && forall x | x in live && x != b :: m'[x].next == m[x].next && m'[x].used == m[x].used
  }

  /** Only the pairs of neighbours that `mem` is part of may both be free. */
  ghost predicate CoalescedBut(c: Config, m: Memory, live: set<nat>, mem: nat)
    requires Tiled(c, m, live)
  {
    forall b {:trigger GoodBlock(c, m, live, b)} | b in live && b != c.End() ::
      GoodBlock(c, m, live, b) && (b == mem || m[b].next == mem || m[b].used || m[m[b].next].used)
  }

  lemma {:induction false} Predecessor(c: Config, m: Memory, live: set<nat>, p: nat, b: nat) returns (a: nat)
    requires Tiled(c, m, live) && p in live && b in live && p < b
    ensures a in live && a < b && m[a].next == b && (b != c.End() ==> m[b].prev == a)
    decreases b - p
  {
    assert GoodBlock(c, m, live, p);
    if m[p].next == b {
      a := p;
    } else {
      a := Predecessor(c, m, live, m[p].next, b);
    }
  }

  lemma JoinForward(c: Config, m: Memory, live: set<nat>, mem: nat)
    requires Joins(c, m, live, mem) && !m[mem].used && !m[m[mem].next].used
    requires CoalescedBut(c, m, live, mem)
    requires Tiled(c, Join(m, mem), live - {m[mem].next})
    ensures CoalescedBut(c, Join(m, mem), live - {m[mem].next}, mem)
    ensures Join(m, mem)[m[m[mem].next].next].used
  {
    var d := m[mem].next;
    assert GoodBlock(c, m, live, mem) && GoodBlock(c, m, live, d);
    var r := Join(m, mem);
    forall b | b in live - {d} && b != c.End()
      ensures GoodBlock(c, r, live - {d}, b) && (b == mem || r[b].next == mem || r[b].used || r[r[b].next].used)
    {
      assert GoodBlock(c, m, live, b);
      assert GoodBlock(c, r, live - {d}, b);
    }
  }

  lemma JoinBackward(c: Config, m: Memory, live: set<nat>, p: nat, mem: nat)
    requires Joins(c, m, live, p) && m[p].next == mem && !m[p].used && !m[mem].used
    requires CoalescedBut(c, m, live, mem) && m[m[mem].next].used
    requires Tiled(c, Join(m, p), live - {mem})
    ensures Coalesced(c, Join(m, p), live - {mem})
  {
    assert GoodBlock(c, m, live, p) && GoodBlock(c, m, live, mem);
    var r := Join(m, p);
    forall b | b in live - {mem} && b != c.End()
      ensures GoodBlock(c, r, live - {mem}, b) && (r[b].used || r[r[b].next].used)
    {
      assert GoodBlock(c, m, live, b);
      assert GoodBlock(c, r, live - {mem}, b);
    }
  }

  lemma NothingToJoin(c: Config, m: Memory, live: set<nat>, mem: nat)
    requires Tiled(c, m, live) && CoalescedBut(c, m, live, mem) && mem in live && mem != c.End()
    requires m[mem].next in m && m[m[mem].next].used
    requires m[mem].prev != mem ==> m[mem].prev in m && m[m[mem].prev].used
    ensures Coalesced(c, m, live)
  {
    forall b | b in live && b != c.End()
      ensures GoodBlock(c, m, live, b) && (m[b].used || m[m[b].next].used)
    {
      assert GoodBlock(c, m, live, b);
    }
  }

  /** Cutting a block in two and using the front keeps free blocks apart, as what follows is used. */
  lemma CarveCoalesced(c: Config, m: Memory, live: set<nat>, p: nat, q: nat)
    requires Splits(c, m, live, p, q) && !m[p].used && Coalesced(c, m, live)
    requires Tiled(c, Split(c, m, p, q)[p := Header(true, q, m[p].prev)], live + {q})
    ensures Coalesced(c, Split(c, m, p, q)[p := Header(true, q, m[p].prev)], live + {q})
  {
    var r := Split(c, m, p, q)[p := Header(true, q, m[p].prev)];
    assert GoodBlock(c, m, live, p);
    forall b | b in live + {q} && b != c.End()
      ensures GoodBlock(c, r, live + {q}, b) && (r[b].used || r[r[b].next].used)
    {
      assert GoodBlock(c, r, live + {q}, b);
      if b != q {
        assert GoodBlock(c, m, live, b);
      }
    }
  }

  predicate PredecessorUsed(m: Memory, b: nat) {
    b in m && (m[b].prev == b || (m[b].prev in m && m[m[b].prev].used))
  }

  /** The block after `b` is free, so plug_holes will join it to a free `b`. */
  predicate SuccessorFree(c: Config, m: Memory, b: nat) {
    b in m && m[b].next in m && !m[m[b].next].used && m[b].next != c.End()
  }

  /**
   Where lfree is after rt_realloc has cut block `b` down to `size` bytes: it moves only with a free block it
   was on.
   */
  function ShrunkFree(c: Config, m: Memory, lfree: nat, b: nat, size: nat): nat {
    if SuccessorFree(c, m, b) && lfree == m[b].next then b + c.hdr + size else lfree
  }

  /** Cutting the tail off a used block leaves one new free block, whose neighbours may be free too. */
  lemma CutTail(c: Config, m: Memory, live: set<nat>, p: nat, q: nat)
    requires Splits(c, m, live, p, q) && m[p].used && Coalesced(c, m, live)
    ensures q !in live && live + {q} <= Split(c, m, p, q).Keys
    ensures Tiled(c, Split(c, m, p, q), live + {q})
    ensures CoalescedBut(c, Split(c, m, p, q), live + {q}, q)
    ensures UsedFrom(c, Split(c, m, p, q), live + {q}, 0) == UsedFrom(c, m, live, 0) - (m[p].next - q)
  {
    SplitTiled(c, m, live, p, q);
    SplitUsed(c, m, live, p, q);
    var r := Split(c, m, p, q);
    var l := live + {q};
    assert GoodBlock(c, m, live, p);
    forall b | b in l && b != c.End()
      ensures GoodBlock(c, r, l, b) && (b == q || r[b].next == q || r[b].used || r[r[b].next].used)
    {
      assert GoodBlock(c, r, l, b);
      if b != q {
        assert GoodBlock(c, m, live, b);
      }
    }
  }

  lemma CutTailBlocks(c: Config, m: Memory, live: set<nat>, p: nat, q: nat)
    requires Splits(c, m, live, p, q) && m[p].used && q !in live
    ensures var r := Split(c, m, p, q);
            && live + {q} <= r.Keys && !r[q].used && r[q].next == m[p].next
            && Allocated(c, r, live + {q}) == Allocated(c, m, live)[p := q]
            && (forall b | b in live :: r[b].used == m[b].used)
            && PredecessorUsed(r, q) && SuccessorFree(c, r, q) == SuccessorFree(c, m, p)
  {
  }

  lemma MarkCoalesced(c: Config, m: Memory, live: set<nat>, p: nat)
    requires Tiled(c, m, live) && p in live && p != c.End() && Coalesced(c, m, live)
    requires Tiled(c, m[p := m[p].(used := true)], live)
    ensures Coalesced(c, m[p := m[p].(used := true)], live)
  {
    var r := m[p := m[p].(used := true)];
    forall b | b in live && b != c.End()
      ensures GoodBlock(c, r, live, b) && (r[b].used || r[r[b].next].used)
    {
      assert GoodBlock(c, m, live, b);
      assert GoodBlock(c, r, live, b);
    }
  }

  lemma SumAligned(c: Config, p: nat, size: nat)
    requires c.Ok() && c.Aligned(p) && c.Aligned(size)
    ensures c.Aligned(p + c.hdr + size)
  {
    AddMod(p, c.hdr, c.unit);
    AddMod(p + c.hdr, size, c.unit);
  }

  /** What using the front of a free block, up to `q`, does to the heap as a whole. */
  lemma CutFront(c: Config, m: Memory, live: set<nat>, p: nat, q: nat)
    requires Splits(c, m, live, p, q) && !m[p].used && Coalesced(c, m, live)
    ensures q !in live && p in Split(c, m, p, q) && Split(c, m, p, q)[p] == Header(false, q, m[p].prev)
    ensures var r := Split(c, m, p, q)[p := Header(true, q, m[p].prev)];
            && Tiled(c, r, live + {q}) && Coalesced(c, r, live + {q})
            && UsedFrom(c, r, live + {q}, 0) == UsedFrom(c, m, live, 0) + (q - p)
  {
    SplitTiled(c, m, live, p, q);
    SplitUsed(c, m, live, p, q);
    MarkTiled(c, Split(c, m, p, q), live + {q}, p, true);
    MarkUsed(c, Split(c, m, p, q), live + {q}, p, true);
    CarveCoalesced(c, m, live, p, q);
  }

  lemma CutFrontBlocks(c: Config, m: Memory, live: set<nat>, p: nat, q: nat)
    requires Splits(c, m, live, p, q) && !m[p].used && q !in live
    ensures var r := Split(c, m, p, q)[p := Header(true, q, m[p].prev)];
            && live + {q} <= r.Keys
            && Allocated(c, r, live + {q}) == Allocated(c, m, live)[p := q]
            && (forall b | b in live && b != p :: r[b].used == m[b].used)
            && (forall b | b in live + {q} && !r[b].used :: b == q || (b in live && !m[b].used && b != p))
  {
  }

  lemma WholeBlocks(c: Config, m: Memory, live: set<nat>, p: nat)
    requires Tiled(c, m, live) && p in live && p != c.End()
    ensures var r := m[p := m[p].(used := true)];
            && Allocated(c, r, live) == Allocated(c, m, live)[p := m[p].next]
  {
  }

  lemma UnmarkCoalesced(c: Config, m: Memory, live: set<nat>, p: nat)
    requires Tiled(c, m, live) && p in live && p != c.End() && Coalesced(c, m, live)
    requires Tiled(c, m[p := m[p].(used := false)], live)
    ensures CoalescedBut(c, m[p := m[p].(used := false)], live, p)
  {
    var r := m[p := m[p].(used := false)];
    forall b | b in live && b != c.End()
      ensures GoodBlock(c, r, live, b) && (b == p || r[b].next == p || r[b].used || r[r[b].next].used)
    {
      assert GoodBlock(c, m, live, b);
      assert GoodBlock(c, r, live, b);
    }
  }

  class Heap {
    const c: Config
    var m: Memory
    ghost var live: set<nat>
    var lfree: nat
    var usedMem: nat
    var maxMem: nat
    var bytes: seq<int>

    ghost predicate ChainValid()
      reads this
    {
      && Tiled(c, m, live)
      && lfree in live && (lfree == c.End() || !m[lfree].used)
      && |bytes| == c.End() + c.hdr
    }

    ghost predicate Valid()
      reads this
    {
      && ChainValid()
      && Coalesced(c, m, live)
      && usedMem == UsedFrom(c, m, live, 0)
      && usedMem <= maxMem
    }

    ghost function Blocks(): map<nat, nat>
      requires live <= m.Keys
      reads this
    {
      Allocated(c, m, live)
    }

    /** lfree is what its name says. Every operation but a shrinking realloc keeps it so. */
    ghost predicate LowestFree()
      requires live <= m.Keys
      reads this
    {
      forall b | b in live && !m[b].used :: lfree <= b
    }

    /** rt_system_heap_init on an aligned region large enough for two headers. */
    constructor (unit: nat, hdr: nat, min: nat, size: nat)
      requires Config(unit, hdr, min, size).Ok()
      ensures Valid() && LowestFree() && Blocks() == map[] && live == {0, c.End()}
      ensures c == Config(unit, hdr, min, size)
    {
      c := Config(unit, hdr, min, size);
      m := map[0 := Header(false, size + hdr, 0), size + hdr := Header(true, size + hdr, size + hdr)];
      live := {0, size + hdr};
      lfree, usedMem, maxMem := 0, 0, 0;
      bytes := seq(size + 2 * hdr, _ => 0);
      new;
      AddMod(size, hdr, unit);
      assert c.Aligned(0) && c.Aligned(c.End());
      assert GoodBlock(c, m, live, 0);
    }

    /** The free block `p` swallows its free successor. */
    method Absorb(p: nat)
      requires ChainValid() && p in live && p != c.End() && !m[p].used
      requires Joins(c, m, live, p) && !m[m[p].next].used
      modifies `m, `live, `lfree
      ensures ChainValid() && m == Join(old(m), p) && live == old(live) - {old(m)[p].next}
      ensures lfree == if old(lfree) == old(m)[p].next then p else old(lfree)
      ensures UsedFrom(c, m, live, 0) == old(UsedFrom(c, m, live, 0))
      ensures Blocks() == old(Blocks())
      ensures old(LowestFree()) ==> LowestFree()
    {
      var n := m[p].next;
      JoinTiled(c, m, live, p);
      JoinUsed(c, m, live, p);
      if lfree == n {
        lfree := p;
      }
      m, live := Join(m, p), live - {n};
    }

    method PlugForward(mem: nat)
      requires ChainValid() && mem in live && mem != c.End() && !m[mem].used
      requires CoalescedBut(c, m, live, mem)
      modifies `m, `live, `lfree
      ensures ChainValid() && CoalescedBut(c, m, live, mem) && mem in live && !m[mem].used
      ensures m[mem].next in live && m[m[mem].next].used
      ensures UsedFrom(c, m, live, 0) == old(UsedFrom(c, m, live, 0)) && Blocks() == old(Blocks())
      ensures old(LowestFree()) ==> LowestFree()
      ensures live == if SuccessorFree(c, old(m), mem) then old(live) - {old(m[mem].next)} else old(live)
      ensures lfree == if SuccessorFree(c, old(m), mem) && old(lfree == m[mem].next) then mem else old(lfree)
      ensures m[mem].prev == old(m[mem].prev) && forall b | b in live :: m[b].used == old(m)[b].used
    {
      var nmem := m[mem].next;
      assert GoodBlock(c, m, live, mem);
      if mem != nmem && !m[nmem].used && nmem != c.End() {
        assert GoodBlock(c, m, live, nmem);
        JoinTiled(c, m, live, mem);
        JoinForward(c, m, live, mem);
        Absorb(mem);
      }
    }

    method PlugBackward(mem: nat)
      requires ChainValid() && mem in live && mem != c.End() && !m[mem].used
      requires CoalescedBut(c, m, live, mem) && m[mem].next in live && m[m[mem].next].used
      modifies `m, `live, `lfree
      ensures ChainValid() && Coalesced(c, m, live)
      ensures UsedFrom(c, m, live, 0) == old(UsedFrom(c, m, live, 0)) && Blocks() == old(Blocks())
      ensures old(LowestFree()) ==> LowestFree()
      ensures PredecessorUsed(old(m), mem) ==> m == old(m) && live == old(live) && lfree == old(lfree)
    {
      var pmem := m[mem].prev;
      if mem != 0 {
        var a := Predecessor(c, m, live, 0, mem);
      }
      if pmem != mem && !m[pmem].used {
        JoinTiled(c, m, live, pmem);
        JoinBackward(c, m, live, pmem, mem);
        Absorb(pmem);
      } else {
        NothingToJoin(c, m, live, mem);
      }
    }

    /** plug_holes: join the free block `mem` with a free successor and a free predecessor. */
    method PlugHoles(mem: nat)
      requires ChainValid() && mem in live && mem != c.End() && !m[mem].used
      requires CoalescedBut(c, m, live, mem)
      modifies `m, `live, `lfree
      ensures ChainValid() && Coalesced(c, m, live)
      ensures UsedFrom(c, m, live, 0) == old(UsedFrom(c, m, live, 0)) && Blocks() == old(Blocks())
      ensures old(LowestFree()) ==> LowestFree()
      ensures PredecessorUsed(old(m), mem) ==>
        && live == (if SuccessorFree(c, old(m), mem) then old(live) - {old(m[mem].next)} else old(live))
        && lfree == (if SuccessorFree(c, old(m), mem) && old(lfree == m[mem].next) then mem else old(lfree))
        && forall b | b in live :: b in old(m) && m[b].used == old(m)[b].used
    {
      if mem != 0 {
        var a := Predecessor(c, m, live, 0, mem);
        assert a in live && GoodBlock(c, m, live, mem);
      }
      PlugForward(mem);
      PlugBackward(mem);
    }

    /** Use the front of the free block `p`, and leave the rest as a free block. */
    method CarveFront(p: nat, size: nat)
      requires Valid() && Fits(c, m, live, p, size) && c.Aligned(size) && size > 0
      requires m[p].next - (p + c.hdr) >= size + c.hdr + c.MinAligned()
      modifies `m, `live, `usedMem
      ensures Tiled(c, m, live) && Coalesced(c, m, live) && old(live) <= live && usedMem == UsedFrom(c, m, live, 0)
      ensures p in live && m[p].used && p + c.hdr + size <= m[p].next && Blocks() == old(Blocks())[p := m[p].next]
      ensures forall b | b in live && !m[b].used :: b > p || (b in old(live) && !old(m)[b].used && b != p)
      ensures Carved(c, old(m), old(live), m, live, p, size)
    {
      assert GoodBlock(c, m, live, p);
      var q := p + c.hdr + size;
      SumAligned(c, p, size);
      CutFront(c, m, live, p, q);
      CutFrontBlocks(c, m, live, p, q);
      m, live := Split(c, m, p, q), live + {q};
      m := m[p := m[p].(used := true)];
      usedMem := usedMem + size + c.hdr;
    }

    /** Use all of the free block `p`. */
    method CarveWhole(p: nat, ghost size: nat)
      requires Valid() && Fits(c, m, live, p, size) && c.Aligned(size) && size > 0
      requires m[p].next - (p + c.hdr) < size + c.hdr + c.MinAligned()
      modifies `m, `usedMem
      ensures Tiled(c, m, live) && Coalesced(c, m, live) && usedMem == UsedFrom(c, m, live, 0)
      ensures p in live && m[p].used && p + c.hdr + size <= m[p].next && Blocks() == old(Blocks())[p := m[p].next]
      ensures forall b | b in live && !m[b].used :: b > p || (!old(m)[b].used && b != p)
      ensures Carved(c, old(m), live, m, live, p, size)
    {
      assert GoodBlock(c, m, live, p);
      MarkTiled(c, m, live, p, true);
      MarkUsed(c, m, live, p, true);
      MarkCoalesced(c, m, live, p);
      WholeBlocks(c, m, live, p);
      m := m[p := m[p].(used := true)];
      usedMem := usedMem + (m[p].next - p);
    }

    /** Mark the free block `p` used, first cutting off what `size` bytes leave over. */
    method Carve(p: nat, size: nat)
      requires Valid() && Fits(c, m, live, p, size) && c.Aligned(size) && size > 0
      modifies `m, `live, `usedMem, `maxMem
      ensures Tiled(c, m, live) && Coalesced(c, m, live) && old(live) <= live
      ensures usedMem == UsedFrom(c, m, live, 0) <= maxMem
      ensures p in live && m[p].used && p + c.hdr + size <= m[p].next
      ensures Blocks() == old(Blocks())[p := m[p].next]
      ensures forall b | b in live && !m[b].used :: b > p || (b in old(live) && !old(m)[b].used && b != p)
      ensures Carved(c, old(m), old(live), m, live, p, size)
      ensures maxMem == if old(maxMem) < usedMem then usedMem else old(maxMem)
    {
      if m[p].next - (p + c.hdr) >= size + c.hdr + c.MinAligned() {
        CarveFront(p, size);
      } else {
        CarveWhole(p, size);
      }
      if maxMem < usedMem {
        maxMem := usedMem;
      }
    }

    /** The request rt_malloc searches for: aligned, and at least the smallest block. */
    function Request(size: nat): (r: nat)
      requires c.Ok()
      reads this
      ensures size <= r && c.Aligned(r) && c.MinAligned() <= r && (r == c.MinAligned() || r < size + c.unit)
    {
      if Up(size, c.unit) < c.MinAligned() then c.MinAligned() else Up(size, c.unit)
    }

    /** The walk of rt_malloc from lfree up the chain. */
    method Search(want: nat) returns (r: Option<nat>)
      requires Valid() && want <= c.size
      ensures r.None? ==> NoFit(c, m, live, lfree, want)
      ensures r.Some? ==> FirstFit(c, m, live, lfree, r.value, want)
    {
      var ptr := lfree;
      while ptr < c.size - want
        invariant ptr in live && lfree <= ptr
        invariant forall b | lfree <= b < ptr :: !Fits(c, m, live, b, want)
        decreases c.End() - ptr
      {
        if !m[ptr].used && m[ptr].next - (ptr + c.hdr) >= want {
          return Some(ptr);
        }
        assert GoodBlock(c, m, live, ptr);
        ptr := m[ptr].next;
      }
      r := None;
    }

    /**
     rt_malloc: the first block from lfree on that fits, or nothing when none does.
     A success adds one allocation and touches no other.
     */
    method Malloc(size: nat) returns (r: Option<nat>)
      requires Valid()
      modifies `m, `live, `lfree, `usedMem, `maxMem
      ensures Valid() && (old(LowestFree()) ==> LowestFree())
      ensures r.None? ==> m == old(m) && live == old(live) && lfree == old(lfree) && usedMem == old(usedMem)
      ensures r.None? <==> size == 0 || Up(size, c.unit) > c.size
                           || NoFit(c, old(m), old(live), old(lfree), Request(size))
      ensures r.Some? ==>
                var b := r.value - c.hdr;
                && 0 <= b && FirstFit(c, old(m), old(live), old(lfree), b, Request(size))
                && b in live && b + c.hdr + Request(size) <= m[b].next
                && Blocks() == old(Blocks())[b := m[b].next]
                && Carved(c, old(m), old(live), m, live, b, Request(size))
                && (if b == old(lfree) then forall x | x in live && b <= x && !m[x].used :: lfree <= x
                    else lfree == old(lfree))
      ensures maxMem == if old(maxMem) < usedMem then usedMem else old(maxMem)
    {
      if size == 0 || Up(size, c.unit) > c.size {
        return None;
      }
      var want := Request(size);
      var found := Search(want);
      if found.None? {
        return None;
      }
      var mem := found.value;
      Carve(mem, want);
      if mem == lfree {
        AdvanceFree();
      }
      r := Some(mem + c.hdr);
    }

    /** Move lfree up to the next free block, or to the end. */
    method AdvanceFree()
      requires Tiled(c, m, live) && lfree in live
      modifies `lfree
      ensures lfree in live && (lfree == c.End() || !m[lfree].used)
      ensures forall b | b in live && old(lfree) <= b && !m[b].used :: lfree <= b
    {
      while m[lfree].used && lfree != c.End()
        invariant lfree in live
        invariant forall b | b in live && old(lfree) <= b && !m[b].used :: lfree <= b
        decreases c.End() - lfree
      {
        assert GoodBlock(c, m, live, lfree);
        lfree := m[lfree].next;
      }
    }

    /** A pointer the heap gave out and has not taken back. */
    ghost predicate Holds(p: nat)
      requires live <= m.Keys
      reads this
    {
      p >= c.hdr && p - c.hdr in Blocks()
    }

    /** rt_free: the allocation goes, all others stay, and the hole is plugged. */
    method Free(rmem: Option<nat>)
      requires Valid()
      requires rmem.Some? && rmem.value < c.End() ==> Holds(rmem.value)
      modifies `m, `live, `lfree, `usedMem
      ensures Valid() && (old(LowestFree()) ==> LowestFree())
      ensures rmem.Some? && rmem.value < c.End() ==> Blocks() == old(Blocks()) - {rmem.value - c.hdr}
      ensures rmem.None? || rmem.value >= c.End() ==> m == old(m) && live == old(live)
    {
      if rmem.None? || rmem.value >= c.End() {
        return;
      }
      var mem := rmem.value - c.hdr;
      assert GoodBlock(c, m, live, mem);
      MarkTiled(c, m, live, mem, false);
      MarkUsed(c, m, live, mem, false);
      UnmarkCoalesced(c, m, live, mem);
      m := m[mem := m[mem].(used := false)];
      assert Blocks() == old(Blocks()) - {mem};
      if mem < lfree {
        lfree := mem;
      }
      usedMem := usedMem - (m[mem].next - mem);
      assert old(LowestFree()) ==> LowestFree();
      PlugHoles(mem);
    }

    /** The splitting path of rt_realloc: give back what lies behind the first `size` bytes. */
    method CutOff(mem: nat, size: nat)
      requires Valid() && mem in Blocks() && c.Aligned(size) && size > 0
      requires mem + c.hdr + size + c.hdr < m[mem].next
      modifies `m, `live, `lfree, `usedMem
      ensures Valid() && Blocks() == old(Blocks())[mem := mem + c.hdr + size]
      ensures lfree == ShrunkFree(c, old(m), old(lfree), mem, size)
      ensures forall b :: b in live && !m[b].used <==>
        b == mem + c.hdr + size || (b in old(live) && !old(m)[b].used && b != old(m)[mem].next)
    {
      assert GoodBlock(c, m, live, mem);
      var q := mem + c.hdr + size;
      SumAligned(c, mem, size);
      CutTail(c, m, live, mem, q);
      CutTailBlocks(c, m, live, mem, q);
      usedMem := usedMem - (m[mem].next - q);
      m, live := Split(c, m, mem, q), live + {q};
      PlugHoles(q);
    }

    /** As CutOff, with what becomes of the lowest-free shortcut. */
    method Shrink(mem: nat, size: nat)
      requires Valid() && mem in Blocks() && c.Aligned(size) && size > 0
      requires mem + c.hdr + size + c.hdr < m[mem].next
      modifies `m, `live, `lfree, `usedMem
      ensures Valid() && Blocks() == old(Blocks())[mem := mem + c.hdr + size]
      ensures lfree == ShrunkFree(c, old(m), old(lfree), mem, size)
      // lfree still finds the lowest free block exactly when it lay below the block, or right behind it.
      ensures old(LowestFree()) ==>
        (LowestFree() <==> old(lfree) < mem || old(lfree) == old(m[mem].next) != c.End())
    {
      assert GoodBlock(c, m, live, mem);
      assert lfree <= mem || m[mem].next <= lfree;
      CutOff(mem, size);
      assert mem + c.hdr + size in live && !m[mem + c.hdr + size].used;
    }

    /** rt_memcpy between two allocations. */
    method Copy(dst: nat, src: nat, n: nat)
      requires dst + n <= |bytes| && src + n <= |bytes| && (dst + n <= src || src + n <= dst)
      modifies `bytes
      ensures |bytes| == |old(bytes)|
      ensures bytes[dst..dst + n] == old(bytes)[src..src + n]
      ensures forall i | 0 <= i < |bytes| && !(dst <= i < dst + n) :: bytes[i] == old(bytes)[i]
    {
      bytes := bytes[..dst] + bytes[src..src + n] + bytes[dst + n..];
    }

    /** Copy the contents of one allocation to another, as far as `size` allows. */
    method CopyInto(mem: nat, b: nat, size: nat)
      requires ChainValid() && mem in Blocks() && b in Blocks() && mem != b
      requires b + c.hdr + size <= Blocks()[b]
      modifies `bytes
      ensures |bytes| == |old(bytes)|
      ensures CopiedTo(old(bytes), bytes, mem + c.hdr, b + c.hdr, Min(DataSize(c, Blocks(), mem), size))
      ensures Untouched(c, Blocks() - {b}, Blocks(), old(bytes), bytes)
    {
      ApartBelow(c, m, live, mem, b);
      var n := Min(m[mem].next - (mem + c.hdr), size);
      ghost var before := bytes;
      Copy(b + c.hdr, mem + c.hdr, n);
      OthersUntouched(c, m, live, b, n, before, bytes);
    }

    /** rt_malloc of an aligned size. */
    method Acquire(size: nat) returns (r: Option<nat>)
      requires Valid() && 0 < size <= c.size && c.Aligned(size)
      modifies `m, `live, `lfree, `usedMem, `maxMem
      ensures Valid() && (old(LowestFree()) ==> LowestFree())
      ensures r.None? ==> Blocks() == old(Blocks())
      ensures r.None? <==> NoFit(c, old(m), old(live), old(lfree), Request(size))
      ensures r.Some? ==> c.hdr <= r.value && AddedTo(c, old(Blocks()), Blocks(), r.value - c.hdr, size)
    {
      r := Malloc(size);
    }

    /** A new block of `size` bytes with the contents of the allocation at `mem`. */
    method Duplicate(mem: nat, size: nat) returns (r: Option<nat>)
      requires Valid() && mem in Blocks() && 0 < size <= c.size && c.Aligned(size)
      modifies this
      ensures Valid() && (old(LowestFree()) ==> LowestFree())
      ensures r.None? ==> Blocks() == old(Blocks()) && bytes == old(bytes)
      ensures r.None? <==> NoFit(c, old(m), old(live), old(lfree), Request(size))
      ensures r.Some? ==> c.hdr <= r.value && AddedTo(c, old(Blocks()), Blocks(), r.value - c.hdr, size)
      ensures r.Some? ==> CopiedTo(old(bytes), bytes, mem + c.hdr, r.value, Min(DataSize(c, old(Blocks()), mem), size))
      ensures Untouched(c, old(Blocks()), Blocks(), old(bytes), bytes)
    {
      ghost var blocks0 := Blocks();
      r := Acquire(size);
      if r.None? {
        return;
      }
      ghost var b: nat := r.value - c.hdr;
      ghost var blocks1 := Blocks();
      assert b !in blocks0 && blocks1 == blocks0[b := blocks1[b]];
      assert DataSize(c, blocks1, mem) == DataSize(c, blocks0, mem);
      CopyInto(mem, r.value - c.hdr, size);
      assert blocks1 - {b} == blocks0;
    }

    /** The moving path of rt_realloc: a new block, the old contents, and the old block freed. */
    method Move(mem: nat, size: nat) returns (r: Option<nat>)
      requires Valid() && mem in Blocks() && 0 < size <= c.size && c.Aligned(size)
      modifies this
      ensures Valid() && (old(LowestFree()) ==> LowestFree())
      ensures r.None? ==> Blocks() == old(Blocks()) && bytes == old(bytes)
      ensures r.None? <==> NoFit(c, old(m), old(live), old(lfree), Request(size))
      ensures r.Some? ==> c.hdr <= r.value && MovedTo(c, old(Blocks()), Blocks(), mem, r.value - c.hdr, size)
      ensures r.Some? ==> CopiedTo(old(bytes), bytes, mem + c.hdr, r.value, Min(DataSize(c, old(Blocks()), mem), size))
      ensures Untouched(c, old(Blocks()), Blocks(), old(bytes), bytes)
    {
      r := Duplicate(mem, size);
      if r.None? {
        return;
      }
      Below(c, m, live, mem);
      ghost var blocks1 := Blocks();
      Free(Some(mem + c.hdr));
      MoveOnce(c, old(Blocks()), blocks1, Blocks(), mem, r.value - c.hdr, size, old(bytes), bytes);
    }

    /** rt_realloc of a live pointer to a non-zero size. */
    method Resize(mem: nat, size: nat) returns (r: Option<nat>)
      requires Valid() && mem in Blocks() && 0 < size <= c.size && c.Aligned(size)
      modifies this
      ensures Valid() && Untouched(c, old(Blocks()), Blocks(), old(bytes), bytes)
      ensures ReallocResult(c, old(Blocks()), Blocks(), old(bytes), bytes, mem, size, r)
      ensures r.None? <==> Grows(c, old(Blocks()), mem, size) && NoFit(c, old(m), old(live), old(lfree), Request(size))
      ensures size + c.hdr + c.min < DataSize(c, old(Blocks()), mem) ==>
        lfree == ShrunkFree(c, old(m), old(lfree), mem, size)
    {
      Below(c, m, live, mem);
      var have := m[mem].next - mem - c.hdr;
      if have == size {
        return Some(mem + c.hdr);
      }
      if size + c.hdr + c.min < have {
        Shrink(mem, size);
        return Some(mem + c.hdr);
      }
      r := Move(mem, size);
    }

    /** rt_realloc with nothing to resize: a null pointer, or a size of zero or beyond the heap. */
    method Degenerate(rmem: Option<nat>, size: nat) returns (r: Option<nat>)
      requires Valid() && c.Aligned(size) && (rmem.None? || size == 0 || size > c.size)
      requires rmem.Some? && rmem.value < c.End() ==> Holds(rmem.value)
      modifies `m, `live, `lfree, `usedMem, `maxMem
      ensures Valid()
      ensures size > c.size ==> r.None? && Blocks() == old(Blocks())
      ensures size == 0 ==> r.None?
      ensures size == 0 && rmem.Some? && rmem.value < c.End() ==> Blocks() == old(Blocks()) - {rmem.value - c.hdr}
      ensures 0 < size <= c.size && r.Some? ==>
        c.hdr <= r.value && AddedTo(c, old(Blocks()), Blocks(), r.value - c.hdr, size)
      ensures 0 < size <= c.size ==> (r.None? <==> NoFit(c, old(m), old(live), old(lfree), Request(size)))
    {
      if size > c.size {
        return None;
      } else if size == 0 {
        Free(rmem);
        return None;
      }
      r := Malloc(size);
    }

    /** rt_realloc. */
    method Realloc(rmem: Option<nat>, newsize: nat) returns (r: Option<nat>)
      requires Valid()
      requires rmem.Some? && rmem.value < c.End() ==> Holds(rmem.value)
      modifies this
      ensures Valid() && Untouched(c, old(Blocks()), Blocks(), old(bytes), bytes)
      ensures Up(newsize, c.unit) > c.size ==> r.None? && Blocks() == old(Blocks())
      ensures newsize == 0 && rmem.Some? && rmem.value < c.End()
              ==> r.None? && Blocks() == old(Blocks()) - {rmem.value - c.hdr}
      ensures rmem.None? && r.Some? ==>
              c.hdr <= r.value && AddedTo(c, old(Blocks()), Blocks(), r.value - c.hdr, Up(newsize, c.unit))
      ensures rmem.Some? && rmem.value < c.End() && 0 < newsize && Up(newsize, c.unit) <= c.size ==>
        && ReallocResult(c, old(Blocks()), Blocks(), old(bytes), bytes, rmem.value - c.hdr, Up(newsize, c.unit), r)
        && (Up(newsize, c.unit) + c.hdr + c.min < DataSize(c, old(Blocks()), rmem.value - c.hdr) ==>
              lfree == ShrunkFree(c, old(m), old(lfree), rmem.value - c.hdr, Up(newsize, c.unit)))
      ensures r.None? <==>
        || newsize == 0 || Up(newsize, c.unit) > c.size
        || ((rmem.None? || (rmem.value < c.End() && Grows(c, old(Blocks()), rmem.value - c.hdr, Up(newsize, c.unit))))
            && NoFit(c, old(m), old(live), old(lfree), Request(Up(newsize, c.unit))))
    {
      var size := Up(newsize, c.unit);
      if size > c.size || size == 0 || rmem.None? {
        r := Degenerate(rmem, size);
        return;
      }
      if rmem.value >= c.End() {
        return rmem;
      }
      ghost var blocks, data := Blocks(), bytes;
      r := Resize(rmem.value - c.hdr, size);
      assert ReallocResult(c, blocks, Blocks(), data, bytes, rmem.value - c.hdr, size, r);
    }
  }

  /** The number of data bytes of an allocation. */
  function DataSize(c: Config, blocks: map<nat, nat>, b: nat): nat {
    if b in blocks && b + c.hdr <= blocks[b] then blocks[b] - b - c.hdr else 0
  }

  lemma Below(c: Config, m: Memory, live: set<nat>, b: nat)
    requires Tiled(c, m, live) && b in Allocated(c, m, live)
    ensures b + c.hdr < m[b].next <= c.End()
  {
    assert GoodBlock(c, m, live, b);
  }

  /** Two allocations lie apart, within the heap. */
  lemma ApartBelow(c: Config, m: Memory, live: set<nat>, a: nat, b: nat)
    requires Tiled(c, m, live) && a in Allocated(c, m, live) && b in Allocated(c, m, live) && a != b
    ensures a + c.hdr < m[a].next <= c.End() && b + c.hdr < m[b].next <= c.End()
    ensures m[a].next <= b || m[b].next <= a
  {
    Below(c, m, live, a);
    Below(c, m, live, b);
    BlocksDisjoint(c, m, live, a, b);
  }

  lemma MoveOnce(c: Config, blocks0: map<nat, nat>, blocks1: map<nat, nat>, blocks2: map<nat, nat>, mem: nat,
                 b: nat, size: nat, before: seq<int>, after: seq<int>)
    requires mem in blocks0 && AddedTo(c, blocks0, blocks1, b, size) && blocks2 == blocks1 - {mem}
    requires Untouched(c, blocks0, blocks1, before, after)
    ensures MovedTo(c, blocks0, blocks2, mem, b, size)
    ensures Untouched(c, blocks0, blocks2, before, after)
  {
  }

  function Min(a: nat, b: nat): nat { if a < b then a else b }

  ghost predicate AddedTo(c: Config, before: map<nat, nat>, after: map<nat, nat>, b: nat, size: nat) {
    b !in before && b in after && after == before[b := after[b]] && RoomFor(c, b, after[b], size)
  }

  /** A block from `b` to `end` has room for `size` bytes, and less than another block needs beyond them. */
  ghost predicate RoomFor(c: Config, b: nat, end: nat, size: nat) {
    c.unit > 0 && b + c.hdr + size <= end < b + c.hdr + Max(size, c.MinAligned()) + c.hdr + c.MinAligned()
  }

  function Max(a: nat, b: nat): nat { if a < b then b else a }

  /** The allocation at `a` has become one at `b`, with room for `size` bytes; no other changed. */
  ghost predicate MovedTo(c: Config, before: map<nat, nat>, after: map<nat, nat>, a: nat, b: nat, size: nat) {
    && a in before && b !in before && b in after
    && after == (before - {a})[b := after[b]] && RoomFor(c, b, after[b], size)
  }

  ghost predicate CopiedTo(before: seq<int>, after: seq<int>, src: nat, dst: nat, n: nat) {
    && src + n <= |before| && dst + n <= |after|
    && after[dst..dst + n] == before[src..src + n]
  }

  /** The bytes of every allocation that is there before and after are the same. */
  ghost predicate Untouched(c: Config, blocks: map<nat, nat>, blocks': map<nat, nat>, before: seq<int>,
                            after: seq<int>) {
    && |before| == |after|
    && forall b | b in blocks && b in blocks' :: SameData(before, after, b + c.hdr, blocks'[b])
  }

  /** An allocation that has to move to hold `size` bytes, or so few fewer that cutting it does not pay. */
  ghost predicate Grows(c: Config, blocks: map<nat, nat>, mem: int, size: nat) {
    mem in blocks && DataSize(c, blocks, mem) != size && size + c.hdr + c.min >= DataSize(c, blocks, mem)
  }

  /** What rt_realloc of the allocation at `mem` to the aligned `size` may answer. */
  ghost predicate ReallocResult(c: Config, blocks: map<nat, nat>, blocks': map<nat, nat>,
                                before: seq<int>, after: seq<int>, mem: nat, size: nat, r: Option<nat>)
  {
    var have := DataSize(c, blocks, mem);
    if have == size then r == Some(mem + c.hdr) && blocks' == blocks
    else if size + c.hdr + c.min < have then r == Some(mem + c.hdr) && blocks' == blocks[mem := mem + c.hdr + size]
    else if r.None? then blocks' == blocks
    else c.hdr <= r.value && MovedTo(c, blocks, blocks', mem, r.value - c.hdr, size)
         && CopiedTo(before, after, mem + c.hdr, r.value, Min(have, size))
  }

  /** Writing the first `n` bytes of one allocation leaves the bytes of all others alone. */
  lemma OthersUntouched(c: Config, m: Memory, live: set<nat>, d: nat, n: nat, before: seq<int>, after: seq<int>)
    requires Tiled(c, m, live) && d in live && d != c.End() && d + c.hdr + n <= m[d].next
    requires |before| == |after|
    requires forall i | 0 <= i < |after| && !(d + c.hdr <= i < d + c.hdr + n) :: after[i] == before[i]
    ensures Untouched(c, Allocated(c, m, live) - {d}, Allocated(c, m, live), before, after)
  {
    forall b | b in Allocated(c, m, live) && b != d ensures SameData(before, after, b + c.hdr, m[b].next) {
      BlocksDisjoint(c, m, live, b, d);
    }
  }

  /** Two allocations never share a byte, and no allocation covers a header. */
  lemma AllocationsDisjoint(c: Config, m: Memory, live: set<nat>, a: nat, b: nat)
    requires Tiled(c, m, live) && a in Allocated(c, m, live) && b in live && a != b
    ensures b < a || Allocated(c, m, live)[a] <= b
    ensures b < a && b in Allocated(c, m, live) ==> Allocated(c, m, live)[b] <= a
  {
    assert GoodBlock(c, m, live, a);
    if b != c.End() {
      BlocksDisjoint(c, m, live, a, b);
    }
  }

  /** Where two heaps have the same allocations, the blocks in between are the same too. */
  lemma {:induction false} SameChain(c: Config, m: Memory, live: set<nat>, m': Memory, live': set<nat>, p: nat)
    requires Tiled(c, m, live) && Coalesced(c, m, live) && Tiled(c, m', live') && Coalesced(c, m', live')
    requires Allocated(c, m, live) == Allocated(c, m', live') && p in live && p in live'
    ensures SameBlocks(m, live, m', live', p, c.End())
    decreases c.End() - p
  {
    if p < c.End() {
      assert GoodBlock(c, m, live, p) && GoodBlock(c, m', live', p);
      SameNext(c, m, live, m', live', p);
      SameChain(c, m, live, m', live', m[p].next);
    }
  }

  lemma SameNext(c: Config, m: Memory, live: set<nat>, m': Memory, live': set<nat>, p: nat)
    requires Tiled(c, m, live) && Coalesced(c, m, live) && Tiled(c, m', live') && Coalesced(c, m', live')
    requires Allocated(c, m, live) == Allocated(c, m', live') && p in live && p in live' && p < c.End()
    ensures m[p].used == m'[p].used && m[p].next == m'[p].next
  {
    assert GoodBlock(c, m, live, p) && GoodBlock(c, m', live', p);
    UsedAllocated(c, m, live, p);
    UsedAllocated(c, m', live', p);
    UsedAllocated(c, m, live, m[p].next);
    UsedAllocated(c, m', live', m'[p].next);
  }

  /** So what is allocated determines the whole heap: where every block begins, how far it goes and what is free. */
  lemma Determined(c: Config, m: Memory, live: set<nat>, m': Memory, live': set<nat>)
    requires Tiled(c, m, live) && Coalesced(c, m, live) && Tiled(c, m', live') && Coalesced(c, m', live')
    requires Allocated(c, m, live) == Allocated(c, m', live')
    ensures live == live' && forall b | b in live :: m[b].next == m'[b].next && m[b].used == m'[b].used
  {
    SameChain(c, m, live, m', live', 0);
    assert forall b | b in live || b in live' :: b < c.End() || b == c.End();
  }

  /** When everything has been freed the heap is one free block again. */
  lemma AllFree(c: Config, m: Memory, live: set<nat>)
    requires Tiled(c, m, live) && Coalesced(c, m, live) && Allocated(c, m, live) == map[]
    ensures live == {0, c.End()} && m[0].next == c.End() && !m[0].used
    ensures UsedFrom(c, m, live, 0) == 0
  {
    var n := m[0].next;
    assert GoodBlock(c, m, live, 0);
    forall b | b in live && b != c.End() ensures !m[b].used {
      assert b !in Allocated(c, m, live);
    }
  }

  /**
   With lfree on the lowest free block, a search fails only if every free block is too small,
   except for the one the strict search bound overlooks: an exact fit at the end of the heap.
   */
  lemma FailureIsFragmentation(c: Config, m: Memory, live: set<nat>, lfree: nat, size: nat)
    requires Tiled(c, m, live) && size <= c.size
    requires forall b | b in live && !m[b].used :: lfree <= b
    ensures NoFit(c, m, live, lfree, size) <==>
      forall b | b in live && !m[b].used :: m[b].next < b + c.hdr + size || b + c.hdr + size == c.End()
  {
    if !NoFit(c, m, live, lfree, size) {
      var b :| lfree <= b && Fits(c, m, live, b, size);
      assert b + c.hdr + size != c.End();
    } else {
      forall b | b in live && !m[b].used
        ensures m[b].next < b + c.hdr + size || b + c.hdr + size == c.End()
      {
        assert !Fits(c, m, live, b, size);
        assert GoodBlock(c, m, live, b);
      }
    }
  }

  /** A block too close to the end for another one behind it is the only one. */
  lemma SoleBlock(c: Config, m: Memory, live: set<nat>)
    requires Tiled(c, m, live) && (live == {0, c.End()} || m[0].next + c.hdr >= c.End())
    ensures m[0].next == c.End() && live == {0, c.End()}
  {
    assert GoodBlock(c, m, live, 0);
    assert m[0].next == c.End() || GoodBlock(c, m, live, m[0].next);
  }

  lemma NothingUsed(c: Config, m: Memory, live: set<nat>)
    requires Tiled(c, m, live) && live == {0, c.End()} && Allocated(c, m, live) == map[]
    ensures m[0].next == c.End() && !m[0].used
  {
    SoleBlock(c, m, live);
    assert 0 !in Allocated(c, m, live);
  }

  /** A new heap does not give out all of its bytes, whatever its size: the block ends at the end of the heap. */
  method WholeHeapRefused(unit: nat, hdr: nat, min: nat, size: nat) returns (r: Option<nat>)
    requires Config(unit, hdr, min, size).Ok() && size > 0
    ensures r == None
  {
    var h := new Heap(unit, hdr, min, size);
    r := h.Malloc(size);
  }

  /** There is one allocation, at the beginning of the heap. */
  ghost predicate Sole(blocks: map<nat, nat>, end: nat) {
    0 in blocks && blocks[0] == end && forall b | b in blocks :: b == 0
  }

  method NewHeap(c: Config, n: nat) returns (h: Heap)
    requires c.Ok() && 0 < n < c.size
    ensures fresh(h) && h.Valid() && h.c == c && h.Blocks() == map[]
    ensures !NoFit(c, h.m, h.live, h.lfree, n) && forall b :: FirstFit(c, h.m, h.live, h.lfree, b, n) ==> b == 0
  {
    h := new Heap(c.unit, c.hdr, c.min, c.size);
    NothingUsed(c, h.m, h.live);
    OnlyFit(c, h.m, h.live, h.lfree, n);
  }

  /** A request that leaves less than a header gets all of a new heap, and lfree goes to the end. */
  method TakeAll(c: Config, n: nat) returns (h: Heap, p: Option<nat>)
    requires c.Ok() && c.Aligned(n) && 0 < c.MinAligned() <= n < c.size <= n + c.hdr
    ensures fresh(h) && h.Valid() && h.c == c
    ensures p == Some(c.hdr) && Sole(h.Blocks(), c.End()) && h.lfree == c.End()
  {
    h := NewHeap(c, n);
    assert h.Request(n) == n;
    p := h.Malloc(n);
    NothingFree(c, h.m, h.live, h.lfree);
  }

  lemma NothingFree(c: Config, m: Memory, live: set<nat>, lfree: nat)
    requires Tiled(c, m, live) && lfree in live && (lfree == c.End() || !m[lfree].used)
    requires 0 in Allocated(c, m, live) && m[0].next + c.hdr >= c.End()
    ensures m[0].next == c.End() == lfree
    ensures Sole(Allocated(c, m, live), c.End())
  {
    SoleBlock(c, m, live);
  }

  lemma OnlyFit(c: Config, m: Memory, live: set<nat>, lfree: nat, size: nat)
    requires Tiled(c, m, live) && live == {0, c.End()} && !m[0].used && m[0].next == c.End() && 0 < size < c.size
    requires lfree in live && (lfree == c.End() || !m[lfree].used) && forall b | b in live && !m[b].used :: lfree <= b
    ensures !NoFit(c, m, live, lfree, size) && forall b :: FirstFit(c, m, live, lfree, b, size) ==> b == 0
  {
    assert Fits(c, m, live, 0, size);
  }

  lemma SoleChanged(before: map<nat, nat>, after: map<nat, nat>, end: nat, end': nat)
    requires Sole(before, end) && after == before[0 := end']
    ensures Sole(after, end')
  {
  }

  /** rt_realloc then cuts it down to `k` bytes, and lfree stays at the end. */
  method CutDown(h: Heap, k: nat)
    requires h.Valid() && Sole(h.Blocks(), h.c.End()) && h.lfree == h.c.End()
    requires h.c.Aligned(k) && 0 < k && k + h.c.hdr + h.c.min < h.c.size
    modifies h
    ensures h.Valid() && Sole(h.Blocks(), h.c.hdr + k) && h.lfree == h.c.End()
  {
    var q := h.Realloc(Some(h.c.hdr), k);
    SoleChanged(old(h.Blocks()), h.Blocks(), h.c.End(), h.c.hdr + k);
  }

  /** Behind the only allocation there is one free block, up to the end of the heap. */
  lemma RestFree(c: Config, m: Memory, live: set<nat>, q: nat)
    requires Tiled(c, m, live) && Coalesced(c, m, live) && Sole(Allocated(c, m, live), q) && q < c.End()
    ensures q in live && !m[q].used && m[q].next == c.End()
  {
    assert GoodBlock(c, m, live, 0);
    UsedAllocated(c, m, live, q);
    assert GoodBlock(c, m, live, q);
    UsedAllocated(c, m, live, m[q].next);
  }

  lemma UsedAllocated(c: Config, m: Memory, live: set<nat>, b: nat)
    requires live <= m.Keys && b in live
    ensures m[b].used <==> b in Allocated(c, m, live) || (b == c.End() && m[b].used)
  {
  }

  lemma NothingBehind(c: Config, m: Memory, live: set<nat>, size: nat)
    requires Tiled(c, m, live)
    ensures NoFit(c, m, live, c.End(), size)
  {
  }

  /** So all but `k` bytes and a header are in one free block, and yet every request fails, however small. */
  method ShrinkHidesMemory(c: Config, n: nat, k: nat, size: nat) returns (h: Heap, r: Option<nat>)
    requires c.Ok() && c.Aligned(n) && 0 < c.MinAligned() <= n < c.size <= n + c.hdr
    requires c.Aligned(k) && 0 < k && k + c.hdr + c.min < c.size
    ensures r == None && h.Valid() && h.c == c && Sole(h.Blocks(), c.hdr + k)
    ensures c.hdr + k in h.live && !h.m[c.hdr + k].used && h.m[c.hdr + k].next == c.End()
  {
    var p;
    h, p := TakeAll(c, n);
    CutDown(h, k);
    RestFree(c, h.m, h.live, c.hdr + k);
    NothingBehind(c, h.m, h.live, h.Request(size));
    r := h.Malloc(size);
  }

  function HundredBytes(): (c: Config)
    ensures c.Ok() && c.MinAligned() == 12 == c.hdr == c.min && c.size == 100 && c.Aligned(96) && c.Aligned(12)
  {
    Config(4, 12, 12, 100)
  }

  /** In a heap of 100 bytes: rt_malloc(96), rt_realloc to 12, and then rt_malloc(12) fails with 76 bytes free. */
  method TwelveOfHundred() returns (h: Heap, r: Option<nat>)
    ensures r == None && h.Valid() && h.c.size == 100
    ensures 24 in h.live && !h.m[24].used && h.m[24].next == 24 + h.c.hdr + 76
  {
    var c := HundredBytes();
    h, r := ShrinkHidesMemory(c, 96, 12, 12);
  }

  /** The pointers a client holds are distinct allocations, each with room for what was asked for. */
  ghost predicate Owns(c: Config, blocks: map<nat, nat>, held: seq<Held>) {
    Distinct(held) && forall i | 0 <= i < |held| :: Good(c, blocks, held[i])
  }

  ghost predicate Good(c: Config, blocks: map<nat, nat>, x: Held) {
    x.p >= c.hdr && x.p - c.hdr in blocks && x.p + x.size <= blocks[x.p - c.hdr]
  }

  lemma OwnsAdded(c: Config, blocks: map<nat, nat>, blocks': map<nat, nat>, held: seq<Held>, x: Held)
    requires Owns(c, blocks, held) && Good(c, blocks', x) && x.p - c.hdr !in blocks
    requires blocks' == blocks[x.p - c.hdr := blocks'[x.p - c.hdr]]
    ensures Owns(c, blocks', held + [x])
  {
    forall i | 0 <= i < |held| ensures held[i].p != x.p && Good(c, blocks', held[i]) {
      assert Good(c, blocks, held[i]);
    }
  }

  lemma OwnsFreed(c: Config, blocks: map<nat, nat>, blocks': map<nat, nat>, held: seq<Held>, k: nat)
    requires Owns(c, blocks, held) && k < |held| && blocks' == blocks - {held[k].p - c.hdr}
    ensures Owns(c, blocks', Without(held, k))
  {
    var r := Without(held, k);
    forall i | 0 <= i < |r| ensures Good(c, blocks', r[i]) {
      assert Good(c, blocks, r[i]) && r[i].p != held[k].p && Good(c, blocks, held[k]);
    }
  }

  /** What a size change means for the allocations. */
  lemma ResizedBlocks(c: Config, blocks: map<nat, nat>, blocks': map<nat, nat>, before: seq<int>, after: seq<int>,
                      mem: nat, n: nat, size: nat, p: nat)
    requires mem in blocks && mem + c.hdr <= blocks[mem] && n <= size
    requires ReallocResult(c, blocks, blocks', before, after, mem, size, Some(p))
    ensures c.hdr <= p && p - c.hdr in blocks' && p + n <= blocks'[p - c.hdr]
    ensures p - c.hdr == mem || p - c.hdr !in blocks
    ensures forall b | b in blocks && b != mem :: b in blocks' && blocks'[b] == blocks[b]
  {
  }

  lemma OwnsResized(c: Config, blocks: map<nat, nat>, blocks': map<nat, nat>, before: seq<int>, after: seq<int>,
                    held: seq<Held>, k: nat, n: nat, size: nat, p: Option<nat>)
    requires Owns(c, blocks, held) && k < |held| && 0 < n <= size
    requires ReallocResult(c, blocks, blocks', before, after, held[k].p - c.hdr, size, p)
    ensures Owns(c, blocks', Play(held, Change(k, n), p))
  {
    assert Good(c, blocks, held[k]);
    if p.Some? {
      ResizedBlocks(c, blocks, blocks', before, after, held[k].p - c.hdr, n, size, p.value);
      var r := held[k := Held(p.value, n)];
      forall i | 0 <= i < |r| ensures Good(c, blocks', r[i]) && (i != k ==> r[i].p != r[k].p) {
        assert Good(c, blocks, held[i]);
      }
    } else {
      assert blocks' == blocks;
    }
  }

  method ClientAcquire(h: Heap, held: seq<Held>, size: nat) returns (r: Option<nat>)
    requires h.Valid() && Owns(h.c, h.Blocks(), held)
    modifies h
    ensures h.Valid() && Owns(h.c, h.Blocks(), Play(held, Acquire(size), r))
  {
    ghost var blocks := h.Blocks();
    r := h.Malloc(size);
    if r.Some? {
      OwnsAdded(h.c, blocks, h.Blocks(), held, Held(r.value, size));
    }
  }

  method ClientChange(h: Heap, held: seq<Held>, k: nat, size: nat) returns (r: Option<nat>)
    requires h.Valid() && Owns(h.c, h.Blocks(), held) && k < |held|
    modifies h
    ensures h.Valid() && Owns(h.c, h.Blocks(), Play(held, Change(k, size), r))
  {
    ghost var blocks, data := h.Blocks(), h.bytes;
    assert Good(h.c, blocks, held[k]);
    Below(h.c, h.m, h.live, held[k].p - h.c.hdr);
    r := h.Realloc(Some(held[k].p), size);
    if size == 0 {
      OwnsFreed(h.c, blocks, h.Blocks(), held, k);
    } else if Up(size, h.c.unit) <= h.c.size {
      OwnsResized(h.c, blocks, h.Blocks(), data, h.bytes, held, k, size, Up(size, h.c.unit), r);
    }
  }

  method ClientRelease(h: Heap, held: seq<Held>, k: nat)
    requires h.Valid() && Owns(h.c, h.Blocks(), held) && k < |held|
    modifies h
    ensures h.Valid() && Owns(h.c, h.Blocks(), Without(held, k))
  {
    ghost var blocks := h.Blocks();
    assert Good(h.c, blocks, held[k]);
    Below(h.c, h.m, h.live, held[k].p - h.c.hdr);
    h.Free(Some(held[k].p));
    OwnsFreed(h.c, blocks, h.Blocks(), held, k);
  }

  method ClientStep(h: Heap, held: seq<Held>, op: Op) returns (r: Option<nat>)
    requires h.Valid() && Owns(h.c, h.Blocks(), held)
    modifies h
    ensures h.Valid() && Owns(h.c, h.Blocks(), Play(held, op, r))
  {
    r := None;
    match op {
      case Acquire(size) => r := ClientAcquire(h, held, size);
      case Release(k) =>
        if k < |held| {
          ClientRelease(h, held, k);
        }
      case Change(k, size) =>
        if k < |held| {
          r := ClientChange(h, held, k, size);
        }
    }
  }

  /**
   Any client, any sequence of calls: the heap stays well formed, and what the client holds according
   to what its calls returned are distinct allocations, each with room for what it asked for.
   */
  method Client(h: Heap, ops: seq<Op>) returns (results: seq<Option<nat>>)
    requires h.Valid()
    modifies h
    ensures h.Valid() && |results| == |ops| && Owns(h.c, h.Blocks(), Played(ops, results))
  {
    results := [];
    var held: seq<Held> := [];
    for n := 0 to |ops|
      invariant h.Valid() && |results| == n && held == Played(ops[..n], results) && Owns(h.c, h.Blocks(), held)
    {
      var r := ClientStep(h, held, ops[n]);
      PlayedOn(ops, results, n, r);
      held, results := Play(held, ops[n], r), results + [r];
    }
    assert ops[..|ops|] == ops;
  }
}
