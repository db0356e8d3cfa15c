/**
 Memory heaps (src/memheap.c): the blocks of a pool in a circular list, and the free ones
 among them in a second one. HeapBlocks has the blocks as sequences and what every
 operation keeps; MemHeap refines it with the links of the two lists.

 Blocks are named by the offset of their header in the pool. The last block is a header
 alone, always in use, that keeps blocks from merging across the end of the pool.
 */
module HeapBlocks {
  import opened Sequences

  /** `hdr` is RT_MEMHEAP_SIZE, `mini` RT_MEMHEAP_MINIALLOC, `pool` the size of the pool. */
  datatype Config = Config(hdr: nat, mini: nat, pool: nat) {
    predicate Ok() { hdr > 0 && mini > 0 && 2 * hdr <= pool }
  }

  /** `chain` are the blocks by address, `free` the free ones in the order of the free list. */
  datatype State = State(chain: seq<nat>, used: set<nat>, free: seq<nat>)

  /** Blocks do not overlap: each has room for its header before the next one. */
  ghost predicate Sorted(c: Config, q: seq<nat>) {
    |q| < 2 || (q[0] + c.hdr <= q[1] && Sorted(c, q[1..]))
  }

  /** The blocks tile the pool from its first byte to the last header. */
  ghost predicate Tiled(c: Config, s: State) {
    && c.Ok() && |s.chain| >= 2 && Sorted(c, s.chain)
    && s.chain[0] == 0 && s.chain[|s.chain| - 1] == c.pool - c.hdr
    && s.chain[|s.chain| - 1] in s.used
  }

  /** The free list holds exactly the unused blocks of the block list, each once. */
  ghost predicate FreeListed(s: State) {
    NoDup(s.free) && forall x {:trigger ItemOk(s, x)} :: ItemOk(s, x)
  }

  ghost predicate ItemOk(s: State, x: nat) {
    (x in s.free <==> x in s.chain && x !in s.used) && (x in s.used ==> x in s.chain)
  }

  /** No two neighbours are both free. */
  ghost predicate Coalesced(q: seq<nat>, used: set<nat>) {
    |q| < 2 || ((q[0] in used || q[1] in used) && Coalesced(q[1..], used))
  }

  ghost predicate Inv(c: Config, s: State) {
    Tiled(c, s) && FreeListed(s) && Coalesced(s.chain, s.used)
  }

  /** The data bytes of the free blocks, leaving out the last block of `q`. */
  ghost function FreeBytes(c: Config, q: seq<nat>, used: set<nat>): (n: int) {
    if |q| < 2 then 0
    else (if q[0] in used then 0 else q[1] - q[0] - c.hdr) + FreeBytes(c, q[1..], used)
  }

  /** Block `x` reaches up to `e`. */
  ghost predicate Block(q: seq<nat>, x: nat, e: nat) {
    exists i :: 0 <= i < |q| - 1 && q[i] == x && q[i + 1] == e
  }

  lemma {:induction false} SortedJoin(c: Config, a: seq<nat>, x: nat, b: seq<nat>)
    ensures Sorted(c, a + [x] + b) <==> Sorted(c, a + [x]) && Sorted(c, [x] + b)
  {
    if a == [] {
      assert a + [x] + b == [x] + b && a + [x] == [x];
    } else {
      SortedJoin(c, a[1..], x, b);
      assert (a + [x] + b)[1..] == a[1..] + [x] + b && (a + [x])[1..] == a[1..] + [x];
    }
  }

  /** Bytes are counted piece by piece. */
  lemma {:induction false} BytesJoin(c: Config, a: seq<nat>, x: nat, b: seq<nat>, used: set<nat>)
    ensures FreeBytes(c, a + [x] + b, used) == FreeBytes(c, a + [x], used) + FreeBytes(c, [x] + b, used)
  {
    if a == [] {
      assert a + [x] + b == [x] + b && a + [x] == [x];
    } else {
      BytesJoin(c, a[1..], x, b, used);
      assert (a + [x] + b)[1..] == a[1..] + [x] + b && (a + [x])[1..] == a[1..] + [x];
      assert (a + [x] + b)[1] == (a + [x])[1];
    }
  }

  /** What is used elsewhere does not matter, nor whether the last block is. */
  lemma {:induction false} BytesSame(c: Config, q: seq<nat>, used: set<nat>, used': set<nat>)
    requires forall i | 0 <= i < |q| - 1 :: q[i] in used <==> q[i] in used'
    ensures FreeBytes(c, q, used) == FreeBytes(c, q, used')
  {
    if |q| >= 2 {
      assert forall i | 0 <= i < |q[1..]| :: q[1..][i] == q[i + 1];
      BytesSame(c, q[1..], used, used');
    }
  }

  lemma {:induction false} SortedAt(c: Config, q: seq<nat>, i: nat, j: nat)
    requires Sorted(c, q) && i < j < |q|
    ensures q[i] + c.hdr <= q[j]
    decreases j
  {
    if i > 0 {
      SortedAt(c, q[1..], i - 1, j - 1);
    } else if j > 1 {
      SortedAt(c, q[1..], 0, j - 1);
    }
  }

  lemma SortedNoDup(c: Config, q: seq<nat>)
    requires Sorted(c, q) && c.hdr > 0
    ensures NoDup(q)
  {
    forall i, j | 0 <= i < j < |q| ensures q[i] != q[j] {
      SortedAt(c, q, i, j);
    }
  }

  /** A chain with the blocks between `x` and `y` singled out. */
  function Whole(a: seq<nat>, x: nat, w: seq<nat>, y: nat, b: seq<nat>): seq<nat> {
    a + [x] + (w + [y] + b)
  }

  lemma WholeSorted(c: Config, a: seq<nat>, x: nat, w: seq<nat>, y: nat, b: seq<nat>)
    ensures Sorted(c, Whole(a, x, w, y, b)) <==> Sorted(c, a + [x]) && Sorted(c, [x] + w + [y]) && Sorted(c, [y] + b)
  {
    SortedJoin(c, a, x, w + [y] + b);
    SortedJoin(c, [x] + w, y, b);
    assert [x] + (w + [y] + b) == ([x] + w) + [y] + b;
  }

  lemma WholeBytes(c: Config, a: seq<nat>, x: nat, w: seq<nat>, y: nat, b: seq<nat>, used: set<nat>)
    ensures FreeBytes(c, Whole(a, x, w, y, b), used)
         == FreeBytes(c, a + [x], used) + FreeBytes(c, [x] + w + [y], used) + FreeBytes(c, [y] + b, used)
  {
    BytesJoin(c, a, x, w + [y] + b, used);
    BytesJoin(c, [x] + w, y, b, used);
    assert [x] + (w + [y] + b) == ([x] + w) + [y] + b;
  }

  /** Taking a chain apart at block `k`, with the `m` blocks after it in the middle. */
  lemma Apart(q: seq<nat>, k: nat, m: nat) returns (a: seq<nat>, x: nat, w: seq<nat>, y: nat, b: seq<nat>)
    requires k + m + 1 < |q|
    ensures a == q[..k] && x == q[k] && w == q[k + 1..k + 1 + m] && y == q[k + 1 + m] && b == q[k + 2 + m..]
    ensures q == Whole(a, x, w, y, b)
  {
    a, x, w, y, b := q[..k], q[k], q[k + 1..k + 1 + m], q[k + 1 + m], q[k + 2 + m..];
  }

  /** The `m` blocks after block `k` replaced by `mid`. */
  function Replace(q: seq<nat>, k: nat, m: nat, mid: seq<nat>): seq<nat>
    requires k + m + 1 < |q|
  {
    q[..k + 1] + mid + q[k + 1 + m..]
  }

  ghost predicate Fits(c: Config, x: nat, mid: seq<nat>, y: nat) {
    Sorted(c, [x] + mid + [y])
  }

  lemma Replaced(q: seq<nat>, k: nat, m: nat, mid: seq<nat>)
    requires k + m + 1 < |q|
    ensures Replace(q, k, m, mid) == Whole(q[..k], q[k], mid, q[k + 1 + m], q[k + 2 + m..])
  {
  }

  /** Replacing blocks by blocks that fit keeps the chain sorted, and its bytes change by what happens there. */
  lemma ReplaceOk(c: Config, q: seq<nat>, k: nat, m: nat, mid: seq<nat>, used: set<nat>, used': set<nat>)
    requires Sorted(c, q) && k + m + 1 < |q| && Fits(c, q[k], mid, q[k + 1 + m])
    requires forall i | 0 <= i < |q| && (i < k || i > k + m) :: q[i] in used <==> q[i] in used'
    ensures Sorted(c, Replace(q, k, m, mid))
    ensures FreeBytes(c, Replace(q, k, m, mid), used') - FreeBytes(c, [q[k]] + mid + [q[k + 1 + m]], used')
         == FreeBytes(c, q, used) - FreeBytes(c, [q[k]] + q[k + 1..k + 1 + m] + [q[k + 1 + m]], used)
  {
    var a, x, w, y, b := Apart(q, k, m);
    Replaced(q, k, m, mid);
    WholeSorted(c, a, x, w, y, b);
    WholeSorted(c, a, x, mid, y, b);
    WholeBytes(c, a, x, w, y, b, used);
    WholeBytes(c, a, x, mid, y, b, used');
    BytesSame(c, a + [x], used, used');
    BytesSame(c, [y] + b, used, used');
  }

  lemma {:induction false} CoalescedJoin(a: seq<nat>, x: nat, b: seq<nat>, used: set<nat>)
    ensures Coalesced(a + [x] + b, used) <==> Coalesced(a + [x], used) && Coalesced([x] + b, used)
  {
    if a == [] {
      assert a + [x] + b == [x] + b && a + [x] == [x];
    } else {
      CoalescedJoin(a[1..], x, b, used);
      assert (a + [x] + b)[1..] == a[1..] + [x] + b && (a + [x])[1..] == a[1..] + [x];
      assert (a + [x] + b)[1] == (a + [x])[1];
    }
  }

  lemma WholeCoalesced(a: seq<nat>, x: nat, w: seq<nat>, y: nat, b: seq<nat>, used: set<nat>)
    ensures Coalesced(Whole(a, x, w, y, b), used)
       <==> Coalesced(a + [x], used) && Coalesced([x] + w + [y], used) && Coalesced([y] + b, used)
  {
    CoalescedJoin(a, x, w + [y] + b, used);
    CoalescedJoin([x] + w, y, b, used);
    assert [x] + (w + [y] + b) == ([x] + w) + [y] + b;
  }

  lemma {:induction false} CoalescedSame(q: seq<nat>, used: set<nat>, used': set<nat>)
    requires Coalesced(q, used) && forall i | 0 <= i < |q| :: q[i] in used ==> q[i] in used'
    ensures Coalesced(q, used')
  {
    if |q| >= 2 {
      assert forall i | 0 <= i < |q[1..]| :: q[1..][i] == q[i + 1];
      CoalescedSame(q[1..], used, used');
    }
  }

  /** A block may become free if the one before it is used. */
  lemma PrefixCoalesced(a: seq<nat>, x: nat, used: set<nat>, used': set<nat>)
    requires Coalesced(a + [x], used) && forall i | 0 <= i < |a| :: a[i] in used ==> a[i] in used'
    requires (x in used ==> x in used') || a == [] || a[|a| - 1] in used'
    ensures Coalesced(a + [x], used')
  {
    if a == [] {
      assert a + [x] == [x];
    } else if !(x in used ==> x in used') {
      AllButLast(a, x, used, used');
    } else {
      CoalescedSame(a + [x], used, used');
    }
  }

  lemma AllButLast(a: seq<nat>, x: nat, used: set<nat>, used': set<nat>)
    requires a != [] && Coalesced(a + [x], used) && forall i | 0 <= i < |a| :: a[i] in used ==> a[i] in used'
    requires a[|a| - 1] in used'
    ensures Coalesced(a + [x], used')
  {
    var p, z := a[..|a| - 1], a[|a| - 1];
    assert a == p + [z] && forall i | 0 <= i < |p| :: p[i] == a[i];
    LastMayBeFree(p, z, x, used, used');
  }

  lemma LastMayBeFree(p: seq<nat>, z: nat, x: nat, used: set<nat>, used': set<nat>)
    requires Coalesced(p + [z] + [x], used) && z in used' && forall i | 0 <= i < |p| :: p[i] in used ==> p[i] in used'
    ensures Coalesced(p + [z] + [x], used')
  {
    CoalescedJoin(p, z, [x], used);
    CoalescedSame(p + [z], used, used');
    CoalescedJoin(p, z, [x], used');
  }

  lemma ReplaceElements(c: Config, q: seq<nat>, k: nat, m: nat, mid: seq<nat>)
    requires Sorted(c, q) && c.hdr > 0 && k + m + 1 < |q|
    ensures forall z :: z in Replace(q, k, m, mid) <==> z in mid || (z in q && z !in q[k + 1..k + 1 + m])
  {
    SortedNoDup(c, q);
    var w := q[k + 1..k + 1 + m];
    assert q == q[..k + 1] + w + q[k + 1 + m..];
    forall z | z in w ensures z !in q[..k + 1] && z !in q[k + 1 + m..] {
      var i :| 0 <= i < |w| && w[i] == z;
      assert q[k + 1 + i] == z;
    }
  }

  /** An edit of the blocks between block `k` and block `k + m + 1`. */
  ghost predicate Edits(c: Config, s: State, k: nat, m: nat, mid: seq<nat>, r: State) {
    && k + m + 1 < |s.chain| && r.chain == Replace(s.chain, k, m, mid) && Fits(c, s.chain[k], mid, s.chain[k + 1 + m])
    && (forall i | 0 <= i < |s.chain| && (i < k || i > k + m) :: s.chain[i] in s.used <==> s.chain[i] in r.used)
  }

  lemma EditTiled(c: Config, s: State, k: nat, m: nat, mid: seq<nat>, r: State)
    requires Tiled(c, s) && Edits(c, s, k, m, mid, r)
    ensures Tiled(c, r)
    ensures FreeBytes(c, r.chain, r.used) - FreeBytes(c, [s.chain[k]] + mid + [s.chain[k + 1 + m]], r.used)
         == FreeBytes(c, s.chain, s.used)
            - FreeBytes(c, [s.chain[k]] + s.chain[k + 1..k + 1 + m] + [s.chain[k + 1 + m]], s.used)
  {
    ReplaceOk(c, s.chain, k, m, mid, s.used, r.used);
    var n := |s.chain| - 1;
    assert r.chain[0] == s.chain[0] && r.chain[|r.chain| - 1] == s.chain[n];
    assert s.chain[n] in s.used <==> s.chain[n] in r.used;
  }

  lemma EditCoalesced(c: Config, s: State, k: nat, m: nat, mid: seq<nat>, r: State)
    requires Coalesced(s.chain, s.used) && Edits(c, s, k, m, mid, r)
    requires Coalesced([s.chain[k]] + mid + [s.chain[k + 1 + m]], r.used)
    requires (s.chain[k] in s.used ==> s.chain[k] in r.used) || k == 0 || s.chain[k - 1] in s.used
    ensures Coalesced(r.chain, r.used)
  {
    var a, x, w, y, b := Apart(s.chain, k, m);
    Replaced(s.chain, k, m, mid);
    WholeCoalesced(a, x, w, y, b, s.used);
    WholeCoalesced(a, x, mid, y, b, r.used);
    assert forall i | 0 <= i < |a| :: a[i] == s.chain[i];
    PrefixCoalesced(a, x, s.used, r.used);
    assert forall i | 0 <= i < |[y] + b| :: ([y] + b)[i] == s.chain[k + m + 1 + i];
    CoalescedSame([y] + b, s.used, r.used);
  }

  /** Every operation is such an edit, and keeps the invariant. */
  lemma EditInv(c: Config, s: State, k: nat, m: nat, mid: seq<nat>, r: State)
    requires Inv(c, s) && Edits(c, s, k, m, mid, r)
    requires FreeListed(r)
    requires Coalesced([s.chain[k]] + mid + [s.chain[k + 1 + m]], r.used)
    requires (s.chain[k] in s.used ==> s.chain[k] in r.used) || k == 0 || s.chain[k - 1] in s.used
    ensures Inv(c, r)
    ensures FreeBytes(c, r.chain, r.used) - FreeBytes(c, [s.chain[k]] + mid + [s.chain[k + 1 + m]], r.used)
         == FreeBytes(c, s.chain, s.used)
            - FreeBytes(c, [s.chain[k]] + s.chain[k + 1..k + 1 + m] + [s.chain[k + 1 + m]], s.used)
  {
    EditTiled(c, s, k, m, mid, r);
    EditCoalesced(c, s, k, m, mid, r);
  }

  /** Two neighbours. */
  lemma Pair(c: Config, x: nat, y: nat, used: set<nat>)
    ensures Sorted(c, [x, y]) <==> x + c.hdr <= y
    ensures Coalesced([x, y], used) <==> x in used || y in used
    ensures FreeBytes(c, [x, y], used) == if x in used then 0 else y - x - c.hdr
    ensures [x] + [] + [y] == [x, y]
  {
    assert [x, y][1..] == [y];
  }

  /** Three in a row. */
  lemma Triple(c: Config, x: nat, q: nat, y: nat, used: set<nat>)
    ensures Sorted(c, [x, q, y]) <==> x + c.hdr <= q && q + c.hdr <= y
    ensures Coalesced([x, q, y], used) <==> (x in used || q in used) && (q in used || y in used)
    ensures FreeBytes(c, [x, q, y], used) == (if x in used then 0 else q - x - c.hdr)
      + (if q in used then 0 else y - q - c.hdr)
    ensures [x] + [q] + [y] == [x, q, y]
  {
    assert [x, q, y][1..] == [q, y];
    Pair(c, q, y, used);
  }

  /* The operations. */

  /** The data bytes of block `k`. */
  function SizeAt(c: Config, s: State, k: nat): int
    requires k + 1 < |s.chain|
  {
    s.chain[k + 1] - s.chain[k] - c.hdr
  }

  /** rt_memheap_alloc with free block `k`: use all of it, or its front if enough is left for another block. */
  function AllocAt(c: Config, s: State, k: nat, size: nat): State
    requires k + 1 < |s.chain|
  {
    var x := s.chain[k];
    var free := Remove(s.free, x);
    if SizeAt(c, s, k) >= size + c.hdr + c.mini then
      var q := x + c.hdr + size;
      State(Replace(s.chain, k, 0, [q]), s.used + {x}, [q] + free)
    else s.(used := s.used + {x}, free := free)
  }

  /** rt_memheap_free of used block `k`: merge with the free neighbours. */
  function FreeAt(s: State, k: nat): State
    requires k + 1 < |s.chain|
  {
    var x, n := s.chain[k], s.chain[k + 1];
    var left, right := k > 0 && s.chain[k - 1] !in s.used, n !in s.used;
    var free := if right then Remove(s.free, n) else s.free;
    if left then
      if right && k + 2 < |s.chain| then State(Replace(s.chain, k - 1, 2, []), s.used - {x}, free)
      else State(Replace(s.chain, k - 1, 1, []), s.used - {x}, free)
    else if right && k + 2 < |s.chain| then State(Replace(s.chain, k, 1, []), s.used - {x}, [x] + free)
    else State(s.chain, s.used - {x}, [x] + free)
  }

  /** rt_memheap_realloc in place: block `k` takes part of the free block after it. */
  function GrowAt(c: Config, s: State, k: nat, size: nat): State
    requires k + 2 < |s.chain|
  {
    var q := s.chain[k] + c.hdr + size;
    State(Replace(s.chain, k, 1, [q]), s.used, [q] + Remove(s.free, s.chain[k + 1]))
  }

  /** rt_memheap_realloc to a smaller size: the rest of block `k` becomes a free block, joined with one after it. */
  function ShrinkAt(c: Config, s: State, k: nat, size: nat): State
    requires k + 1 < |s.chain|
  {
    var q, n := s.chain[k] + c.hdr + size, s.chain[k + 1];
    if n !in s.used && k + 2 < |s.chain| then State(Replace(s.chain, k, 1, [q]), s.used, [q] + Remove(s.free, n))
    else State(Replace(s.chain, k, 0, [q]), s.used, [q] + s.free)
  }

  /** Block `k` and the next one. */
  lemma Step(c: Config, s: State, k: nat)
    requires Inv(c, s) && k + 1 < |s.chain|
    ensures s.chain[k] + c.hdr <= s.chain[k + 1] && s.chain[k] != s.chain[k + 1]
      && (s.chain[k] in s.used || s.chain[k + 1] in s.used)
    ensures (s.chain[k] in s.free <==> s.chain[k] !in s.used)
      && (s.chain[k + 1] in s.free <==> s.chain[k + 1] !in s.used)
  {
    assert ItemOk(s, s.chain[k]) && ItemOk(s, s.chain[k + 1]);
    SortedAt(c, s.chain, k, k + 1);
    CoalescedAt(s.chain, s.used, k);
  }

  lemma ChainFacts(c: Config, s: State, k: nat)
    requires Inv(c, s) && k < |s.chain|
    ensures NoDup(s.chain) && s.chain[k] in s.chain
    ensures forall i | 0 <= i < |s.chain| && i != k :: s.chain[i] != s.chain[k]
    ensures k + 1 < |s.chain| ==> s.chain[k] + c.hdr <= s.chain[k + 1]
  {
    SortedNoDup(c, s.chain);
    if k + 1 < |s.chain| {
      SortedAt(c, s.chain, k, k + 1);
    }
  }

  lemma {:induction false} CoalescedAt(q: seq<nat>, used: set<nat>, i: nat)
    requires Coalesced(q, used) && i + 1 < |q|
    ensures q[i] in used || q[i + 1] in used
  {
    if i > 0 {
      CoalescedAt(q[1..], used, i - 1);
    }
  }

  /** A new offset strictly between two neighbours is no block yet. */
  lemma NotABlock(c: Config, s: State, k: nat, q: nat)
    requires Inv(c, s) && k + 1 < |s.chain| && s.chain[k] < q < s.chain[k + 1]
    ensures q !in s.chain && q !in s.used && q !in s.free
  {
    assert ItemOk(s, q);
    forall i | 0 <= i < |s.chain| ensures s.chain[i] != q {
      if i < k {
        SortedAt(c, s.chain, i, k);
      } else if i > k + 1 {
        SortedAt(c, s.chain, k + 1, i);
      }
    }
  }

  lemma AllocSplitsListed(c: Config, s: State, k: nat, size: nat)
    requires Inv(c, s) && k + 1 < |s.chain| && s.chain[k] !in s.used && SizeAt(c, s, k) >= size + c.hdr + c.mini
    ensures var r := AllocAt(c, s, k, size); FreeListed(r)
  {
    var x, q := s.chain[k], s.chain[k] + c.hdr + size;
    Step(c, s, k);
    RemoveDistinct(s.free, x);
    NotABlock(c, s, k, q);
    ReplaceElements(c, s.chain, k, 0, [q]);
    var r := AllocAt(c, s, k, size);
    forall z ensures ItemOk(r, z) {
      assert ItemOk(s, z);
    }
  }

  lemma AllocSplits(c: Config, s: State, k: nat, size: nat)
    requires Inv(c, s) && k + 1 < |s.chain| && s.chain[k] !in s.used && SizeAt(c, s, k) >= size + c.hdr + c.mini
    ensures var r := AllocAt(c, s, k, size);
      && Inv(c, r) && FreeBytes(c, r.chain, r.used) == FreeBytes(c, s.chain, s.used) - size - c.hdr
  {
    var x, y := s.chain[k], s.chain[k + 1];
    var q, r := x + c.hdr + size, AllocAt(c, s, k, size);
    ChainFacts(c, s, k);
    Step(c, s, k);
    NotABlock(c, s, k, q);
    Pair(c, x, y, s.used);
    Triple(c, x, q, y, r.used);
    assert [x] + s.chain[k + 1..k + 1] + [y] == [x, y];
    AllocSplitsListed(c, s, k, size);
    EditInv(c, s, k, 0, [q], r);
  }

  lemma AllocWhole(c: Config, s: State, k: nat, size: nat)
    requires Inv(c, s) && k + 1 < |s.chain| && s.chain[k] !in s.used && size <= SizeAt(c, s, k) < size + c.hdr + c.mini
    ensures var r := AllocAt(c, s, k, size);
      && Inv(c, r) && FreeBytes(c, r.chain, r.used) == FreeBytes(c, s.chain, s.used) - SizeAt(c, s, k)
  {
    var x, y := s.chain[k], s.chain[k + 1];
    var r := AllocAt(c, s, k, size);
    ChainFacts(c, s, k);
    CoalescedAt(s.chain, s.used, k);
    RemoveDistinct(s.free, x);
    assert Replace(s.chain, k, 0, []) == s.chain;
    Pair(c, x, y, s.used);
    Pair(c, x, y, r.used);
    assert [x] + s.chain[k + 1..k + 1] + [y] == [x, y];
    forall z ensures ItemOk(r, z) {
      assert ItemOk(s, z);
    }
    EditInv(c, s, k, 0, [], r);
  }

  lemma FreeAlone(c: Config, s: State, k: nat)
    requires Inv(c, s) && k + 1 < |s.chain| && s.chain[k] in s.used
    requires (k == 0 || s.chain[k - 1] in s.used) && s.chain[k + 1] in s.used
    ensures var r := FreeAt(s, k);
      Inv(c, r) && FreeBytes(c, r.chain, r.used) == FreeBytes(c, s.chain, s.used) + SizeAt(c, s, k)
  {
    var x, y := s.chain[k], s.chain[k + 1];
    var r := FreeAt(s, k);
    ChainFacts(c, s, k);
    Step(c, s, k);
    assert Replace(s.chain, k, 0, []) == s.chain;
    Pair(c, x, y, s.used);
    Pair(c, x, y, r.used);
    assert [x] + s.chain[k + 1..k + 1] + [y] == [x, y];
    forall z ensures ItemOk(r, z) {
      assert ItemOk(s, z);
    }
    EditInv(c, s, k, 0, [], r);
  }

  lemma FreeRightListed(c: Config, s: State, k: nat)
    requires Inv(c, s) && k + 2 < |s.chain| && s.chain[k] in s.used
    requires (k == 0 || s.chain[k - 1] in s.used) && s.chain[k + 1] !in s.used
    ensures var r := FreeAt(s, k); FreeListed(r)
  {
    var x, n := s.chain[k], s.chain[k + 1];
    ChainFacts(c, s, k);
    Step(c, s, k);
    RemoveDistinct(s.free, n);
    ReplaceElements(c, s.chain, k, 1, []);
    assert s.chain[k + 1..k + 2] == [n];
    var r := FreeAt(s, k);
    forall z ensures ItemOk(r, z) {
      assert ItemOk(s, z);
    }
  }

  lemma FreeRight(c: Config, s: State, k: nat)
    requires Inv(c, s) && k + 2 < |s.chain| && s.chain[k] in s.used
    requires (k == 0 || s.chain[k - 1] in s.used) && s.chain[k + 1] !in s.used
    ensures var r := FreeAt(s, k);
      Inv(c, r) && FreeBytes(c, r.chain, r.used) == FreeBytes(c, s.chain, s.used) + SizeAt(c, s, k) + c.hdr
  {
    var x, n, y := s.chain[k], s.chain[k + 1], s.chain[k + 2];
    var r := FreeAt(s, k);
    ChainFacts(c, s, k);
    Step(c, s, k);
    Step(c, s, k + 1);
    assert s.chain[k + 1..k + 2] == [n];
    Triple(c, x, n, y, s.used);
    Pair(c, x, y, r.used);
    FreeRightListed(c, s, k);
    EditInv(c, s, k, 1, [], r);
  }

  lemma FreeLeft(c: Config, s: State, k: nat)
    requires Inv(c, s) && 0 < k && k + 1 < |s.chain| && s.chain[k] in s.used
    requires s.chain[k - 1] !in s.used && s.chain[k + 1] in s.used
    ensures var r := FreeAt(s, k);
      Inv(c, r) && FreeBytes(c, r.chain, r.used) == FreeBytes(c, s.chain, s.used) + SizeAt(c, s, k) + c.hdr
  {
    var p, x, y := s.chain[k - 1], s.chain[k], s.chain[k + 1];
    var r := FreeAt(s, k);
    ChainFacts(c, s, k - 1);
    ChainFacts(c, s, k);
    ReplaceElements(c, s.chain, k - 1, 1, []);
    assert s.chain[k..k + 1] == [x];
    Triple(c, p, x, y, s.used);
    Pair(c, p, y, r.used);
    forall z ensures ItemOk(r, z) {
      assert ItemOk(s, z);
    }
    EditInv(c, s, k - 1, 1, [], r);
  }

  lemma FreeBothListed(c: Config, s: State, k: nat)
    requires Inv(c, s) && 0 < k && k + 2 < |s.chain| && s.chain[k] in s.used
    requires s.chain[k - 1] !in s.used && s.chain[k + 1] !in s.used
    ensures var r := FreeAt(s, k); FreeListed(r)
  {
    var x, n := s.chain[k], s.chain[k + 1];
    ChainFacts(c, s, k);
    Step(c, s, k);
    RemoveDistinct(s.free, n);
    ReplaceElements(c, s.chain, k - 1, 2, []);
    assert s.chain[k..k + 2] == [x, n];
    var r := FreeAt(s, k);
    forall z ensures ItemOk(r, z) {
      assert ItemOk(s, z);
    }
  }

  lemma FreeBoth(c: Config, s: State, k: nat)
    requires Inv(c, s) && 0 < k && k + 2 < |s.chain| && s.chain[k] in s.used
    requires s.chain[k - 1] !in s.used && s.chain[k + 1] !in s.used
    ensures var r := FreeAt(s, k);
      Inv(c, r) && FreeBytes(c, r.chain, r.used) == FreeBytes(c, s.chain, s.used) + SizeAt(c, s, k) + 2 * c.hdr
  {
    var p, x, n, y := s.chain[k - 1], s.chain[k], s.chain[k + 1], s.chain[k + 2];
    var r := FreeAt(s, k);
    FreeBothFacts(c, s, k);
    assert s.chain[k..k + 2] == [x, n];
    Quad(c, p, x, n, y, s.used);
    Pair(c, p, y, r.used);
    FreeBothListed(c, s, k);
    EditInv(c, s, k - 1, 2, [], r);
  }

  lemma FreeBothFacts(c: Config, s: State, k: nat)
    requires Inv(c, s) && 0 < k && k + 2 < |s.chain| && s.chain[k] in s.used
    requires s.chain[k - 1] !in s.used && s.chain[k + 1] !in s.used
    ensures s.chain[k + 2] in s.used && forall i | 0 <= i < |s.chain| && i != k :: s.chain[i] != s.chain[k]
    ensures s.chain[k - 1] + c.hdr <= s.chain[k] && s.chain[k] + c.hdr <= s.chain[k + 1]
    ensures s.chain[k + 1] + c.hdr <= s.chain[k + 2]
  {
    ChainFacts(c, s, k - 1);
    ChainFacts(c, s, k);
    ChainFacts(c, s, k + 1);
    ChainFacts(c, s, k + 2);
    CoalescedAt(s.chain, s.used, k + 1);
  }

  lemma Quad(c: Config, p: nat, x: nat, n: nat, y: nat, used: set<nat>)
    requires x in used && p !in used && n !in used
    ensures FreeBytes(c, [p] + [x, n] + [y], used) == (x - p - c.hdr) + (y - n - c.hdr)
  {
    assert [p] + [x, n] + [y] == [p, x, n, y] && [p, x, n, y][1..] == [x, n, y];
    Triple(c, x, n, y, used);
  }

  /** Freeing a block makes it and the headers it no longer needs available. */
  lemma FreeInv(c: Config, s: State, k: nat)
    requires Inv(c, s) && k + 1 < |s.chain| && s.chain[k] in s.used
    ensures var r := FreeAt(s, k);
      && Inv(c, r) && r.used == s.used - {s.chain[k]}
      && FreeBytes(c, r.chain, r.used) == FreeBytes(c, s.chain, s.used) + SizeAt(c, s, k)
           + (if k > 0 && s.chain[k - 1] !in s.used then c.hdr else 0)
           + (if s.chain[k + 1] !in s.used then c.hdr else 0)
      // A block that does not join the one before it becomes the first of the free list.
      && (k == 0 || s.chain[k - 1] in s.used ==> r.free != [] && r.free[0] == s.chain[k])
  {
    var left, right := k > 0 && s.chain[k - 1] !in s.used, s.chain[k + 1] !in s.used;
    if left && right {
      FreeBoth(c, s, k);
    } else if left {
      FreeLeft(c, s, k);
    } else if right {
      FreeRight(c, s, k);
    } else {
      FreeAlone(c, s, k);
    }
  }

  lemma GrowListed(c: Config, s: State, k: nat, size: nat)
    requires Inv(c, s) && k + 2 < |s.chain| && s.chain[k] in s.used && s.chain[k + 1] !in s.used
    requires SizeAt(c, s, k) < size && SizeAt(c, s, k + 1) + SizeAt(c, s, k) > size + c.mini
    ensures var r := GrowAt(c, s, k, size); FreeListed(r)
  {
    var n, q := s.chain[k + 1], s.chain[k] + c.hdr + size;
    Step(c, s, k);
    Step(c, s, k + 1);
    RemoveDistinct(s.free, n);
    NotABlock(c, s, k + 1, q);
    ReplaceElements(c, s.chain, k, 1, [q]);
    assert s.chain[k + 1..k + 2] == [n];
    var r := GrowAt(c, s, k, size);
    forall z ensures ItemOk(r, z) {
      assert ItemOk(s, z);
    }
  }

  lemma GrowInv(c: Config, s: State, k: nat, size: nat)
    requires Inv(c, s) && k + 2 < |s.chain| && s.chain[k] in s.used && s.chain[k + 1] !in s.used
    requires SizeAt(c, s, k) < size && SizeAt(c, s, k + 1) + SizeAt(c, s, k) > size + c.mini
    ensures var r := GrowAt(c, s, k, size);
      && Inv(c, r) && r.used == s.used
      && FreeBytes(c, r.chain, r.used) == FreeBytes(c, s.chain, s.used) - (size - SizeAt(c, s, k))
  {
    var x, n, y := s.chain[k], s.chain[k + 1], s.chain[k + 2];
    var q, r := x + c.hdr + size, GrowAt(c, s, k, size);
    Step(c, s, k);
    Step(c, s, k + 1);
    NotABlock(c, s, k + 1, q);
    assert s.chain[k + 1..k + 2] == [n];
    Triple(c, x, n, y, s.used);
    Triple(c, x, q, y, r.used);
    GrowListed(c, s, k, size);
    EditInv(c, s, k, 1, [q], r);
  }

  lemma ShrinkAloneListed(c: Config, s: State, k: nat, size: nat)
    requires Inv(c, s) && k + 1 < |s.chain| && s.chain[k] in s.used && s.chain[k + 1] in s.used
      && size + c.hdr + c.mini < SizeAt(c, s, k)
    ensures var r := ShrinkAt(c, s, k, size); FreeListed(r)
  {
    var q := s.chain[k] + c.hdr + size;
    Step(c, s, k);
    NotABlock(c, s, k, q);
    ReplaceElements(c, s.chain, k, 0, [q]);
    var r := ShrinkAt(c, s, k, size);
    forall z ensures ItemOk(r, z) {
      assert ItemOk(s, z);
    }
  }

  lemma ShrinkAlone(c: Config, s: State, k: nat, size: nat)
    requires Inv(c, s) && k + 1 < |s.chain| && s.chain[k] in s.used && s.chain[k + 1] in s.used
      && size + c.hdr + c.mini < SizeAt(c, s, k)
    ensures var r := ShrinkAt(c, s, k, size);
      && Inv(c, r) && FreeBytes(c, r.chain, r.used) == FreeBytes(c, s.chain, s.used) + (SizeAt(c, s, k) - size - c.hdr)
  {
    var x, y := s.chain[k], s.chain[k + 1];
    var q, r := x + c.hdr + size, ShrinkAt(c, s, k, size);
    Step(c, s, k);
    NotABlock(c, s, k, q);
    Pair(c, x, y, s.used);
    Triple(c, x, q, y, r.used);
    assert [x] + s.chain[k + 1..k + 1] + [y] == [x, y];
    ShrinkAloneListed(c, s, k, size);
    EditInv(c, s, k, 0, [q], r);
  }

  lemma ShrinkJoinsListed(c: Config, s: State, k: nat, size: nat)
    requires Inv(c, s) && k + 2 < |s.chain| && s.chain[k] in s.used && s.chain[k + 1] !in s.used
      && size + c.hdr + c.mini < SizeAt(c, s, k)
    ensures var r := ShrinkAt(c, s, k, size); FreeListed(r)
  {
    var n, q := s.chain[k + 1], s.chain[k] + c.hdr + size;
    Step(c, s, k);
    Step(c, s, k + 1);
    RemoveDistinct(s.free, n);
    NotABlock(c, s, k, q);
    ReplaceElements(c, s.chain, k, 1, [q]);
    assert s.chain[k + 1..k + 2] == [n];
    var r := ShrinkAt(c, s, k, size);
    forall z ensures ItemOk(r, z) {
      assert ItemOk(s, z);
    }
  }

  lemma ShrinkJoins(c: Config, s: State, k: nat, size: nat)
    requires Inv(c, s) && k + 2 < |s.chain| && s.chain[k] in s.used && s.chain[k + 1] !in s.used
      && size + c.hdr + c.mini < SizeAt(c, s, k)
    ensures var r := ShrinkAt(c, s, k, size);
      && Inv(c, r) && FreeBytes(c, r.chain, r.used) == FreeBytes(c, s.chain, s.used) + (SizeAt(c, s, k) - size)
  {
    var x, n, y := s.chain[k], s.chain[k + 1], s.chain[k + 2];
    var q, r := x + c.hdr + size, ShrinkAt(c, s, k, size);
    Step(c, s, k);
    Step(c, s, k + 1);
    NotABlock(c, s, k, q);
    assert s.chain[k + 1..k + 2] == [n];
    Triple(c, x, n, y, s.used);
    Triple(c, x, q, y, r.used);
    ShrinkJoinsListed(c, s, k, size);
    EditInv(c, s, k, 1, [q], r);
  }

  /** Everybody else keeps what they have. */
  ghost predicate Keeps(s: State, r: State, x: nat) {
    forall y, e | y in s.used && y != x && Block(s.chain, y, e) :: y in r.used && Block(r.chain, y, e)
  }

  lemma ReplaceKeeps(q: seq<nat>, k: nat, m: nat, mid: seq<nat>, y: nat, e: nat)
    requires k + m + 1 < |q| && Block(q, y, e) && y != q[k] && y !in q[k + 1..k + 1 + m]
    ensures Block(Replace(q, k, m, mid), y, e)
  {
    var r, w := Replace(q, k, m, mid), q[k + 1..k + 1 + m];
    var i :| 0 <= i < |q| - 1 && q[i] == y && q[i + 1] == e;
    assert forall j | k < j <= k + m :: q[j] == w[j - k - 1];
    if i > k {
      var j := i - m + |mid|;
      assert r[j] == y && r[j + 1] == e;
    } else {
      assert r[i] == y && r[i + 1] == e;
    }
  }

  /** An edit at block `k` that removes no used block disturbs no other allocation. */
  lemma EditKeeps(s: State, k: nat, m: nat, mid: seq<nat>, r: State, x: nat)
    requires k + m + 1 < |s.chain| && r.chain == Replace(s.chain, k, m, mid)
    requires forall y | y in s.used && y != x :: y in r.used
    requires s.chain[k] == x || s.chain[k] !in s.used
    requires forall y | y in s.chain[k + 1..k + 1 + m] :: y == x || y !in s.used
    ensures Keeps(s, r, x)
  {
    forall y, e | y in s.used && y != x && Block(s.chain, y, e) ensures y in r.used && Block(r.chain, y, e) {
      ReplaceKeeps(s.chain, k, m, mid, y, e);
    }
  }

  /** The blocks of two allocations do not overlap. */
  lemma BlocksDisjoint(c: Config, s: State, x: nat, e: nat, y: nat, f: nat)
    requires Inv(c, s) && Block(s.chain, x, e) && Block(s.chain, y, f) && x != y
    ensures e <= y || f <= x
  {
    var i :| 0 <= i < |s.chain| - 1 && s.chain[i] == x && s.chain[i + 1] == e;
    var j :| 0 <= j < |s.chain| - 1 && s.chain[j] == y && s.chain[j + 1] == f;
    if i + 1 < j {
      SortedAt(c, s.chain, i + 1, j);
    } else if j + 1 < i {
      SortedAt(c, s.chain, j + 1, i);
    }
  }

  lemma AllocKeeps(c: Config, s: State, k: nat, size: nat) returns (e: nat)
    requires Inv(c, s) && k + 1 < |s.chain| && s.chain[k] !in s.used && SizeAt(c, s, k) >= size
    ensures var x, r := s.chain[k], AllocAt(c, s, k, size);
      && Keeps(s, r, x) && Block(r.chain, x, e) && x + c.hdr + size <= e < x + 2 * c.hdr + size + c.mini
      && (SizeAt(c, s, k) >= size + c.hdr + c.mini ==> e == x + c.hdr + size)
  {
    var x, r := s.chain[k], AllocAt(c, s, k, size);
    if SizeAt(c, s, k) >= size + c.hdr + c.mini {
      e := x + c.hdr + size;
      EditKeeps(s, k, 0, [e], r, x);
    } else {
      e := s.chain[k + 1];
      assert r.chain == Replace(s.chain, k, 0, []);
      EditKeeps(s, k, 0, [], r, x);
    }
    assert r.chain[k] == x && r.chain[k + 1] == e;
  }

  /**
   rt_memheap_alloc: the bytes available fall by what the block takes; the block is large enough and hardly
   larger.
   */
  lemma AllocInv(c: Config, s: State, k: nat, size: nat) returns (e: nat)
    requires Inv(c, s) && k + 1 < |s.chain| && s.chain[k] !in s.used && SizeAt(c, s, k) >= size
    ensures var x, r := s.chain[k], AllocAt(c, s, k, size);
      && Inv(c, r) && r.used == s.used + {x} && Keeps(s, r, x)
      && Block(r.chain, x, e) && x + c.hdr + size <= e < x + 2 * c.hdr + size + c.mini
      && FreeBytes(c, r.chain, r.used) == FreeBytes(c, s.chain, s.used) -
           (if SizeAt(c, s, k) >= size + c.hdr + c.mini then size + c.hdr else SizeAt(c, s, k))
      // What is left over becomes the first of the free list.
      && (SizeAt(c, s, k) >= size + c.hdr + c.mini ==> e == x + c.hdr + size && r.free != [] && r.free[0] == e)
      && (SizeAt(c, s, k) < size + c.hdr + c.mini ==> r.chain == s.chain)
  {
    e := AllocKeeps(c, s, k, size);
    if SizeAt(c, s, k) >= size + c.hdr + c.mini {
      AllocSplits(c, s, k, size);
    } else {
      AllocWhole(c, s, k, size);
    }
  }

  /** rt_memheap_realloc in place, to a larger size: the block ends exactly where it should. */
  lemma GrowKeeps(c: Config, s: State, k: nat, size: nat)
    requires k + 2 < |s.chain| && s.chain[k + 1] !in s.used
    ensures var x, r := s.chain[k], GrowAt(c, s, k, size); Keeps(s, r, x) && Block(r.chain, x, x + c.hdr + size)
  {
    var x, r := s.chain[k], GrowAt(c, s, k, size);
    assert s.chain[k + 1..k + 2] == [s.chain[k + 1]];
    EditKeeps(s, k, 1, [x + c.hdr + size], r, x);
    assert r.chain[k] == x && r.chain[k + 1] == x + c.hdr + size;
  }

  lemma ShrinkKeeps(c: Config, s: State, k: nat, size: nat)
    requires k + 1 < |s.chain|
    ensures var x, r := s.chain[k], ShrinkAt(c, s, k, size); Keeps(s, r, x) && Block(r.chain, x, x + c.hdr + size)
  {
    var x, r := s.chain[k], ShrinkAt(c, s, k, size);
    if s.chain[k + 1] !in s.used && k + 2 < |s.chain| {
      assert s.chain[k + 1..k + 2] == [s.chain[k + 1]];
      EditKeeps(s, k, 1, [x + c.hdr + size], r, x);
    } else {
      EditKeeps(s, k, 0, [x + c.hdr + size], r, x);
    }
    assert r.chain[k] == x && r.chain[k + 1] == x + c.hdr + size;
  }

  /** And to a smaller one: the rest becomes available, with the header of a free block it joins. */
  lemma ShrinkInv(c: Config, s: State, k: nat, size: nat)
    requires Inv(c, s) && k + 1 < |s.chain| && s.chain[k] in s.used && size + c.hdr + c.mini < SizeAt(c, s, k)
    ensures var x, r := s.chain[k], ShrinkAt(c, s, k, size);
      && Inv(c, r) && r.used == s.used && Keeps(s, r, x) && Block(r.chain, x, x + c.hdr + size)
      && FreeBytes(c, r.chain, r.used) == FreeBytes(c, s.chain, s.used) + (SizeAt(c, s, k) - size - c.hdr)
           + (if s.chain[k + 1] !in s.used then c.hdr else 0)
  {
    ShrinkKeeps(c, s, k, size);
    if s.chain[k + 1] !in s.used {
      ShrinkJoins(c, s, k, size);
    } else {
      ShrinkAlone(c, s, k, size);
    }
  }

  lemma FreeKeepsLeft(s: State, k: nat)
    requires k + 1 < |s.chain| && s.chain[k] in s.used && s.chain[|s.chain| - 1] in s.used
    requires k > 0 && s.chain[k - 1] !in s.used
    ensures Keeps(s, FreeAt(s, k), s.chain[k])
  {
    var x, n := s.chain[k], s.chain[k + 1];
    if n !in s.used {
      assert s.chain[k..k + 2] == [x, n];
      EditKeeps(s, k - 1, 2, [], FreeAt(s, k), x);
    } else {
      assert s.chain[k..k + 1] == [x];
      EditKeeps(s, k - 1, 1, [], FreeAt(s, k), x);
    }
  }

  /** rt_memheap_free disturbs no other allocation. */
  lemma FreeKeeps(s: State, k: nat)
    requires k + 1 < |s.chain| && s.chain[k] in s.used && s.chain[|s.chain| - 1] in s.used
    ensures Keeps(s, FreeAt(s, k), s.chain[k])
  {
    if k > 0 && s.chain[k - 1] !in s.used {
      FreeKeepsLeft(s, k);
    } else if s.chain[k + 1] !in s.used {
      assert s.chain[k + 1..k + 2] == [s.chain[k + 1]];
      EditKeeps(s, k, 1, [], FreeAt(s, k), s.chain[k]);
    }
  }
}

/** struct rt_memheap and the items in its pool. */
module MemHeap {
  import opened Sequences
  import opened Clients
  import opened Ring
  import opened HeapBlocks
  import Align

  /** The nodes of the free list: its header, then the free blocks. */
  function Nodes(free: seq<nat>): (r: seq<Option<nat>>)
    ensures |r| == |free| + 1 && r[0] == None && forall i | 0 <= i < |free| :: r[i + 1] == Some(free[i])
  {
    [None] + seq(|free|, i requires 0 <= i < |free| => Some(free[i]))
  }

  lemma NodesPush(free: seq<nat>, x: nat)
    ensures Nodes(free)[..1] + [Some(x)] + Nodes(free)[1..] == Nodes([x] + free)
  {
    var r, q := Nodes(free)[..1] + [Some(x)] + Nodes(free)[1..], Nodes([x] + free);
    forall i | 0 <= i < |q| ensures r[i] == q[i] {
      if i > 1 {
        assert r[i] == Nodes(free)[i - 1] == Some(free[i - 2]) && q[i] == Some(([x] + free)[i - 1]);
      }
    }
  }

  lemma NodesDrop(free: seq<nat>, i: nat)
    requires i < |free|
    ensures Nodes(free)[..i + 1] + Nodes(free)[i + 2..] == Nodes(free[..i] + free[i + 1..])
  {
  }

  lemma NotANode(free: seq<nat>, x: nat)
    requires x !in free
    ensures Some(x) !in Nodes(free)
  {
  }

  /** Two edits at one place are one edit. */
  lemma ReplaceTwice(q: seq<nat>, k: nat, x: nat)
    ensures k + 2 < |q| ==> Replace(Replace(q, k, 1, []), k, 0, [x]) == Replace(q, k, 1, [x])
    ensures k + 2 < |q| ==> Replace(Replace(q, k, 0, [x]), k + 1, 1, []) == Replace(q, k, 1, [x])
    ensures k + 3 < |q| ==> Replace(Replace(q, k, 1, []), k, 1, []) == Replace(q, k, 2, [])
  {
  }

  /** The size an allocation of `n` bytes takes. */
  function Request(c: Config, unit: nat, n: nat): (r: nat)
    requires unit > 0
    ensures n <= r && c.mini <= r && (r == c.mini || (r % unit == 0 && r < n + unit))
  {
    if Align.Up(n, unit) < c.mini then c.mini else Align.Up(n, unit)
  }

  ghost function Place(s: State, x: nat): (k: nat)
    requires x in s.chain
    ensures k < |s.chain| && s.chain[k] == x
  {
    IndexOf(s.chain, x)
  }

  /** A block that can be handed out or taken back: one before the last. */
  lemma PlaceOf(c: Config, s: State, x: nat)
    requires Inv(c, s) && (x in s.chain || x in s.used || x in s.free) && (x == c.pool - c.hdr ==> x in s.free)
    ensures x in s.chain && Place(s, x) + 1 < |s.chain|
    ensures x !in s.used <==> x in s.free
  {
    assert ItemOk(s, x);
  }

  /** The data bytes of block `x`. */
  ghost function SizeOf(c: Config, s: State, x: nat): int
    requires x in s.chain && Place(s, x) + 1 < |s.chain|
  {
    SizeAt(c, s, Place(s, x))
  }

  /** Free block `i` of the free list is too small. */
  ghost predicate TooSmall(c: Config, s: State, size: nat, i: nat)
    requires i < |s.free|
  {
    s.free[i] in s.chain && Place(s, s.free[i]) + 1 < |s.chain| && SizeOf(c, s, s.free[i]) < size
  }

  /** The place of a new block within block `k` is in neither list. */
  lemma NewPlace(c: Config, s: State, k: nat, q: nat)
    requires Inv(c, s) && k + 1 < |s.chain|
    ensures NoDup(s.free)
    ensures s.chain[k] < q < s.chain[k + 1] ==> q !in s.chain && q !in s.free
  {
    assert ItemOk(s, q);
    if s.chain[k] < q < s.chain[k + 1] {
      NotABlock(c, s, k, q);
    }
  }

  /** Every block is at a multiple of `unit`. */
  ghost predicate AlignedBlocks(unit: nat, chain: seq<nat>)
    requires unit > 0
  {
    forall x | x in chain :: x % unit == 0
  }

  /** Headers, the least block and all blocks are multiples of `unit`. */
  ghost predicate Even(c: Config, unit: nat, s: State) {
    unit > 0 && c.hdr % unit == 0 && c.mini % unit == 0 && AlignedBlocks(unit, s.chain)
  }

  lemma ReplaceAligned(unit: nat, q: seq<nat>, k: nat, m: nat, mid: seq<nat>)
    requires unit > 0 && k + m + 1 < |q| && AlignedBlocks(unit, q) && forall x | x in mid :: x % unit == 0
    ensures AlignedBlocks(unit, Replace(q, k, m, mid))
  {
    forall x | x in Replace(q, k, m, mid) ensures x % unit == 0 {
      assert x in q || x in mid;
    }
  }

  /** Blocks of a rounded size keep the blocks aligned. */
  lemma CutAligned(c: Config, unit: nat, s: State, k: nat, size: nat)
    requires Even(c, unit, s) && size % unit == 0 && k + 1 < |s.chain|
    ensures Even(c, unit, AllocAt(c, s, k, size)) && Even(c, unit, ShrinkAt(c, s, k, size))
    ensures k + 2 < |s.chain| ==> Even(c, unit, GrowAt(c, s, k, size))
  {
    assert s.chain[k] in s.chain;
    Align.AddMod(s.chain[k], c.hdr, unit);
    Align.AddMod(s.chain[k] + c.hdr, size, unit);
    var q := s.chain[k] + c.hdr + size;
    ReplaceAligned(unit, s.chain, k, 0, [q]);
    if k + 2 < |s.chain| {
      ReplaceAligned(unit, s.chain, k, 1, [q]);
    }
  }

  /** So do merges. */
  lemma FreeAligned(c: Config, unit: nat, s: State, k: nat)
    requires Even(c, unit, s) && k + 1 < |s.chain|
    ensures Even(c, unit, FreeAt(s, k))
  {
    if k + 2 < |s.chain| {
      ReplaceAligned(unit, s.chain, k, 1, []);
    }
    if k > 0 {
      ReplaceAligned(unit, s.chain, k - 1, 1, []);
      if k + 2 < |s.chain| {
        ReplaceAligned(unit, s.chain, k - 1, 2, []);
      }
    }
  }

  /** The size of a request is rounded if the least size is. */
  lemma RequestAligned(c: Config, unit: nat, n: nat)
    requires unit > 0
    ensures c.mini % unit == 0 ==> Request(c, unit, n) % unit == 0
  {
  }

  /** A pointer to a block that was resized. */
  lemma ResizedAligned(c: Config, unit: nat, s: State, r: State, x: nat, p: nat, n: nat, most: nat)
    requires p >= c.hdr && Resized(c, s, r, x, p - c.hdr, n, most)
    ensures Even(c, unit, r) ==> p % unit == 0
  {
    assert ItemOk(r, p - c.hdr);
    if Even(c, unit, r) {
      PointerAligned(c, unit, r, p - c.hdr);
    }
  }

  /** A pointer to a block behind its header. */
  lemma PointerAligned(c: Config, unit: nat, s: State, x: nat)
    requires Even(c, unit, s) && x in s.chain
    ensures (x + c.hdr) % unit == 0
  {
    Align.AddMod(x, c.hdr, unit);
  }

  /** No free block has room for `size` bytes, or all that is available is asked for. */
  ghost predicate NoRoom(c: Config, s: State, available: int, size: nat) {
    size >= available || forall j | 0 <= j < |s.free| :: TooSmall(c, s, size, j)
  }

  class Heap {
    const c: Config
    const unit: nat                    // RT_ALIGN_SIZE
    var blk: Links<nat>                // next and prev of the items
    var fre: Links<Option<nat>>        // next_free and prev_free; None is free_header
    var used: set<nat>                 // RT_MEMHEAP_USED in magic
    var available: int                 // available_size
    var maxUsed: int                   // max_used_size
    var bytes: seq<int>                // the data in the pool

    ghost predicate Represents(s: State)
      reads this
    {
      && Inv(c, s) && unit > 0 && Lists(s) && |bytes| == c.pool
      && available == FreeBytes(c, s.chain, s.used) && c.pool - available <= maxUsed
    }

    /** rt_memheap_init: one free block, and the block that closes the pool. */
    constructor (c: Config, unit: nat)
      requires c.Ok() && unit > 0
      ensures this.c == c && this.unit == unit && Represents(State([0, c.pool - c.hdr], {c.pool - c.hdr}, [0]))
    {
      this.c, this.unit := c, unit;
      var tail := c.pool - c.hdr;
      blk := Links(map[0 := tail, tail := 0], map[0 := tail, tail := 0]);
      fre := Links(map[None := Some(0), Some(0) := None], map[None := Some(0), Some(0) := None]);
      used, available, maxUsed := {tail}, c.pool - 2 * c.hdr, 2 * c.hdr;
      bytes := seq(c.pool, _ => 0);
      new;
      Pair(c, 0, tail, used);
      assert Linked(blk, [0, tail], 0) && Linked(blk, [0, tail], 1);
      var q := Nodes([0]);
      assert Linked(fre, q, 0) && Linked(fre, q, 1);
    }

    /** Put a block at the front of the free list. */
    method PushFree(x: nat, ghost free: seq<nat>)
      requires IsRing(fre, Nodes(free)) && x !in free
      modifies `fre
      ensures IsRing(fre, Nodes([x] + free))
    {
      NotANode(free, x);
      InsertAfterRing(fre, Nodes(free), 0, Some(x));
      NodesPush(free, x);
      fre := InsertAfter(fre, None, Some(x));
    }

    /** Take a block out of the free list. */
    method DropFree(x: nat, ghost free: seq<nat>)
      requires IsRing(fre, Nodes(free)) && x in free
      modifies `fre
      ensures IsRing(fre, Nodes(Remove(free, x)))
    {
      ghost var i := IndexOf(free, x);
      BypassRing(fre, Nodes(free), i + 1);
      NodesDrop(free, i);
      fre := Bypass(fre, Some(x));
    }

    /** Start a new block at `q` behind block `x`. */
    method Cut(x: nat, q: nat, ghost chain: seq<nat>, ghost k: nat)
      requires IsRing(blk, chain) && k + 1 < |chain| && chain[k] == x && q !in chain
      modifies `blk
      ensures IsRing(blk, Replace(chain, k, 0, [q]))
    {
      InsertAfterRing(blk, chain, k, q);
      blk := InsertAfter(blk, x, q);
    }

    /** Block `n` becomes part of the block before it. */
    method Swallow(n: nat, ghost chain: seq<nat>, ghost k: nat)
      requires IsRing(blk, chain) && k + 2 < |chain| && chain[k + 1] == n
      modifies `blk
      ensures IsRing(blk, Replace(chain, k, 1, []))
    {
      BypassRing(blk, chain, k + 1);
      assert chain[..k + 1] + chain[k + 2..] == Replace(chain, k, 1, []);
      blk := Bypass(blk, n);
    }

    /** MEMITEM_SIZE. */
    method ItemSize(x: nat, ghost s: State) returns (size: int)
      requires IsRing(blk, s.chain) && x in s.chain && Place(s, x) + 1 < |s.chain|
      ensures size == SizeOf(c, s, x)
    {
      RingLinks(blk, s.chain, Place(s, x));
      size := blk.next[x] - x - c.hdr;
    }

    /** The search of rt_memheap_alloc: the first block of the free list that is large enough. */
    method FindFree(size: nat, ghost s: State) returns (r: Option<nat>, ghost i: nat)
      requires Represents(s)
      ensures r.None? ==> forall j | 0 <= j < |s.free| :: TooSmall(c, s, size, j)
      ensures r.Some? ==> i < |s.free| && r.value == s.free[i] && (forall j | 0 <= j < i :: TooSmall(c, s, size, j))
      ensures r.Some? ==> r.value in s.chain && Place(s, r.value) + 1 < |s.chain| && SizeOf(c, s, r.value) >= size
    {
      i := 0;
      RingLinks(fre, Nodes(s.free), 0);
      r := fre.next[None];
      while r.Some?
        invariant i <= |s.free| && r == (if i < |s.free| then Some(s.free[i]) else None)
        invariant forall j | 0 <= j < i :: TooSmall(c, s, size, j)
        decreases |s.free| - i
      {
        PlaceOf(c, s, s.free[i]);
        var n := ItemSize(r.value, s);
        if n >= size {
          return;
        }
        RingLinks(fre, Nodes(s.free), i + 1);
        r := fre.next[r];
        i := i + 1;
      }
    }

    /** Block `x` leaves the free list, and `q` joins it. */
    method Swap(x: nat, q: nat, ghost free: seq<nat>)
      requires IsRing(fre, Nodes(free)) && NoDup(free) && x in free && q !in free
      modifies `fre
      ensures IsRing(fre, Nodes([q] + Remove(free, x)))
    {
      DropFree(x, free);
      RemoveDistinct(free, x);
      PushFree(q, Remove(free, x));
    }

    /** max_used_size keeps up with what is in use. */
    method Account(change: int)
      modifies `available, `maxUsed
      ensures available == old(available) + change && maxUsed == Greatest(old(maxUsed), c.pool - available)
    {
      available := available + change;
      if c.pool - available > maxUsed {
        maxUsed := c.pool - available;
      }
    }

    /** The two lists are those of `s`. */
    ghost predicate Lists(s: State)
      reads this
    {
      IsRing(blk, s.chain) && IsRing(fre, Nodes(s.free)) && used == s.used
    }

    /** Use the front of free block `x`, up to `q`. */
    method Carve(x: nat, q: nat, ghost s: State, ghost k: nat)
      requires Lists(s) && k + 1 < |s.chain| && s.chain[k] == x && q !in s.chain && NoDup(s.free) && x in s.free
        && q !in s.free
      modifies `blk, `fre, `used
      ensures Lists(State(Replace(s.chain, k, 0, [q]), s.used + {x}, [q] + Remove(s.free, x)))
    {
      Cut(x, q, s.chain, k);
      Swap(x, q, s.free);
      used := used + {x};
    }

    /** The lists after rt_memheap_alloc of block `x`, `n` bytes of data. */
    method TakeLists(x: nat, n: int, q: nat, size: nat, ghost s: State, ghost k: nat)
      requires Lists(s) && k + 1 < |s.chain| && s.chain[k] == x && n == SizeAt(c, s, k) && NoDup(s.free) && x in s.free
      requires q == x + c.hdr + size && (n >= size + c.hdr + c.mini ==> q !in s.chain && q !in s.free)
      modifies `blk, `fre, `used
      ensures Lists(AllocAt(c, s, k, size))
    {
      if n >= size + c.hdr + c.mini {
        Carve(x, q, s, k);
      } else {
        DropFree(x, s.free);
        used := used + {x};
      }
    }

    /** rt_memheap_alloc of a block that is large enough. */
    method Take(x: nat, size: nat, ghost s: State)
      requires Represents(s) && x in s.free && x in s.chain && Place(s, x) + 1 < |s.chain| && SizeOf(c, s, x) >= size
      modifies `blk, `fre, `used, `available, `maxUsed
      ensures Represents(AllocAt(c, s, Place(s, x), size))
      ensures maxUsed == Greatest(old(maxUsed), c.pool - available)
    {
      ghost var k := Place(s, x);
      PlaceOf(c, s, x);
      ghost var e := AllocInv(c, s, k, size);
      var n := ItemSize(x, s);
      var q := x + c.hdr + size;
      NewPlace(c, s, k, q);
      TakeLists(x, n, q, size, s, k);
      var taken: int := if n >= size + c.hdr + c.mini then size + c.hdr else n;
      Account(-taken);
    }

    /** rt_memheap_alloc, with the size rounded. */
    method AllocBlock(size: nat, ghost s: State) returns (x: Option<nat>, ghost r: State)
      requires Represents(s)
      modifies `blk, `fre, `used, `available, `maxUsed
      ensures Represents(r) && (x.None? <==> NoRoom(c, s, old(available), size))
      ensures maxUsed == Greatest(old(maxUsed), c.pool - available)
      ensures x.None? ==> r == s
      ensures x.Some? ==> Granted(c, s, r, size, x.value + c.hdr)
    {
      r := s;
      if size >= available {
        return None, r;
      }
      ghost var i;
      x, i := FindFree(size, s);
      if x.Some? {
        assert !TooSmall(c, s, size, i);
        r := AllocAt(c, s, Place(s, x.value), size);
        assert Handed(c, s, r, size, i);
        Take(x.value, size, s);
      }
    }

    /** rt_memheap_alloc. A request for all that is available, or more, is refused. */
    method Alloc(n: nat, ghost s: State) returns (p: Option<nat>, ghost r: State)
      requires Represents(s)
      modifies `blk, `fre, `used, `available, `maxUsed
      ensures Represents(r) && (p.None? <==> NoRoom(c, s, old(available), Request(c, unit, n)))
      ensures maxUsed == Greatest(old(maxUsed), c.pool - available)
      ensures p.None? ==> r == s
      ensures p.Some? ==> Granted(c, s, r, Request(c, unit, n), p.value)
      ensures Even(c, unit, s) ==> Even(c, unit, r) && (p.Some? ==> p.value % unit == 0)
    {
      var x;
      x, r := AllocBlock(Request(c, unit, n), s);
      if x.None? {
        return None, r;
      }
      p := Some(x.value + c.hdr);
      AllocEven(c, unit, s, r, n, p.value);
    }

    /** The merges of rt_memheap_free: whether there is a free block before `x`, and behind it. */
    method FreeLists(x: nat, ghost s: State, ghost k: nat) returns (left: bool, right: bool)
      requires Lists(s) && k + 1 < |s.chain| && s.chain[k] == x && x in s.used && s.chain[|s.chain| - 1] in s.used
      requires x !in s.free && (s.chain[k + 1] !in s.used ==> s.chain[k + 1] in s.free)
      modifies `blk, `fre, `used
      ensures left == LeftFree(s, k) && right == RightFree(s, k) && (right ==> k + 2 < |s.chain|)
      ensures IsRing(blk, Merged(s.chain, k, left, right)) && used == s.used - {x}
      ensures IsRing(fre, Nodes(MergedFree(s.free, x, s.chain[k + 1], left, right)))
    {
      RingLinks(blk, s.chain, k);
      var prev, next := blk.prev[x], blk.next[x];
      used := used - {x};
      left, right := prev !in used, next !in used;
      FreeNodes(x, next, left, right, s.free);
      FreeItems(x, next, left, right, s.chain, k);
    }

    /** The block list: `x` becomes part of the block before it, and the block behind part of either. */
    method FreeItems(x: nat, next: nat, left: bool, right: bool, ghost chain: seq<nat>, ghost k: nat)
      requires IsRing(blk, chain) && k + 1 < |chain| && chain[k] == x && chain[k + 1] == next
      requires (left ==> k > 0) && (right ==> k + 2 < |chain|)
      modifies `blk
      ensures IsRing(blk, Merged(chain, k, left, right))
    {
      if left {
        Swallow(x, chain, k - 1);
        if right {
          Swallow(next, Replace(chain, k - 1, 1, []), k - 1);
          ReplaceTwice(chain, k - 1, 0);
        }
      } else if right {
        Swallow(next, chain, k);
      }
    }

    /** The free list: the block behind leaves it, and `x` joins it unless the block before is in it. */
    method FreeNodes(x: nat, next: nat, left: bool, right: bool, ghost free: seq<nat>)
      requires IsRing(fre, Nodes(free)) && x !in free && (right ==> next in free)
      modifies `fre
      ensures IsRing(fre, Nodes(MergedFree(free, x, next, left, right)))
    {
      if right {
        DropFree(next, free);
        NotInRemoved(free, next, x);
      }
      if !left {
        PushFree(x, if right then Remove(free, next) else free);
      }
    }

    /** A block that can be taken back: in use, and not the one that closes the pool. */
    ghost predicate Taken(s: State, x: nat)
      reads this
    {
      Represents(s) && x in s.used && x != c.pool - c.hdr && x in s.chain && Place(s, x) + 1 < |s.chain|
    }

    /** rt_memheap_free of the block with header `x`. */
    method FreeBlock(x: nat, ghost s: State)
      requires Taken(s, x)
      modifies `blk, `fre, `used, `available, `maxUsed
      ensures Represents(FreeAt(s, Place(s, x)))
      ensures maxUsed == Greatest(old(maxUsed), c.pool - available)
    {
      ghost var k := Place(s, x);
      ghost var r := FreeParts(c, s, k);
      var n := ItemSize(x, s);
      var left, right := FreeLists(x, s, k);
      available := available + n + (if left then c.hdr else 0) + (if right then c.hdr else 0);
    }

    /** rt_memheap_realloc to a larger size, with enough room in the free block `n` behind. */
    method GrowLists(x: nat, n: nat, q: nat, ghost s: State, ghost k: nat, ghost size: nat)
      requires Lists(s) && k + 2 < |s.chain| && s.chain[k] == x && s.chain[k + 1] == n && q == x + c.hdr + size
      requires NoDup(s.free) && n in s.free && q !in s.chain && q !in s.free
      modifies `blk, `fre
      ensures Lists(GrowAt(c, s, k, size))
    {
      Swap(n, q, s.free);
      Shift(x, n, q, s.chain, k);
    }

    /** The boundary between block `x` and the one behind it moves from `n` to `q`. */
    method Shift(x: nat, n: nat, q: nat, ghost chain: seq<nat>, ghost k: nat)
      requires IsRing(blk, chain) && k + 2 < |chain| && chain[k] == x && chain[k + 1] == n && q !in chain
      modifies `blk
      ensures IsRing(blk, Replace(chain, k, 1, [q]))
    {
      Swallow(n, chain, k);
      NotInReplaced(chain, k, q);
      Cut(x, q, Replace(chain, k, 1, []), k);
      ReplaceTwice(chain, k, q);
    }

    method Grow(x: nat, size: nat, ghost s: State) returns (done: bool)
      requires Taken(s, x) && SizeOf(c, s, x) < size
      modifies `blk, `fre, `used, `available, `maxUsed
      ensures done <==> CanGrow(c, s, Place(s, x), size)
      ensures if done then Represents(GrowAt(c, s, Place(s, x), size)) else Represents(s)
      ensures maxUsed == Greatest(old(maxUsed), c.pool - available)
    {
      ghost var k := Place(s, x);
      var old' := ItemSize(x, s);
      RingLinks(blk, s.chain, k);
      var n := blk.next[x];
      if n in used {
        return false;
      }
      RingLinks(blk, s.chain, k + 1);
      var next := blk.next[n] - n - c.hdr;
      if next + old' <= size + c.mini {
        return false;
      }
      GrowInv(c, s, k, size);
      var q := x + c.hdr + size;
      GrowReady(c, s, k, size, q);
      var grown: int := size - old';
      Account(-grown);
      GrowLists(x, n, q, s, k, size);
      done := true;
    }

    method ShrinkLists(x: nat, q: nat, ghost s: State, ghost k: nat, ghost size: nat)
      requires Lists(s) && k + 1 < |s.chain| && s.chain[k] == x && s.chain[|s.chain| - 1] in s.used
        && q == x + c.hdr + size
      requires NoDup(s.free) && (s.chain[k + 1] !in s.used ==> s.chain[k + 1] in s.free) && q !in s.chain
        && q !in s.free
      modifies `blk, `fre
      ensures Lists(ShrinkAt(c, s, k, size))
    {
      Cut(x, q, s.chain, k);
      ghost var chain := Replace(s.chain, k, 0, [q]);
      assert chain[k + 1] == q && chain[k + 2] == s.chain[k + 1];
      RingLinks(blk, chain, k + 1);
      var n := blk.next[q];
      if n !in used {
        Swallow(n, chain, k + 1);
        ReplaceTwice(s.chain, k, q);
        Swap(n, q, s.free);
      } else {
        PushFree(q, s.free);
      }
    }

    /** rt_memheap_realloc to a size that leaves room for another block. */
    method Shrink(x: nat, size: nat, ghost s: State)
      requires Taken(s, x) && size + c.hdr + c.mini < SizeOf(c, s, x)
      modifies `blk, `fre, `used, `available, `maxUsed
      ensures Represents(ShrinkAt(c, s, Place(s, x), size))
      ensures maxUsed == Greatest(old(maxUsed), c.pool - available)
    {
      ghost var k := Place(s, x);
      ShrinkInv(c, s, k, size);
      FreeReady(c, s, k);
      var q := x + c.hdr + size;
      NewPlace(c, s, k, q);
      var old' := ItemSize(x, s);
      RingLinks(blk, s.chain, k);
      var saved := if blk.next[x] in used then 0 else c.hdr;
      ShrinkLists(x, q, s, k, size);
      available := available + (old' - size - c.hdr) + saved;
    }

    /** rt_memheap_free; RT_NULL is ignored. */
    method Free(ptr: Option<nat>, ghost s: State) returns (ghost r: State)
      requires Represents(s) && Owned(c, s, ptr)
      modifies `blk, `fre, `used, `available, `maxUsed
      ensures Represents(r) && (ptr.None? ==> r == s) && (ptr.Some? ==> Freed(c, s, r, ptr.value - c.hdr))
      ensures maxUsed == Greatest(old(maxUsed), c.pool - available)
      ensures Even(c, unit, s) ==> Even(c, unit, r)
    {
      r := s;
      if ptr.Some? {
        var x := ptr.value - c.hdr;
        r := FreeOk(c, s, x);
        FreeBlock(x, s);
        if Even(c, unit, s) {
          FreeAligned(c, unit, s, Place(s, x));
        }
      }
    }

    /** rt_memheap_realloc to a larger size: in place if the block behind allows, and else by moving. */
    method Enlarge(x: nat, size: nat, ghost n: nat, ghost s: State) returns (y: Option<nat>, ghost r: State)
      requires Taken(s, x) && SizeOf(c, s, x) < size && n <= size
      modifies this
      ensures Represents(r) && (y.None? ==> r == s && bytes == old(bytes))
      ensures y.None? <==> !CanGrow(c, s, Place(s, x), size) && NoRoom(c, s, old(available), Request(c, unit, size))
      ensures y.Some? ==>
        Resized(c, s, r, x, y.value, n, Request(c, unit, size))
        && Carried(c, s, old(bytes), bytes, x, y.value, SizeOf(c, s, x))
      ensures CanGrow(c, s, Place(s, x), size) ==> y == Some(x)
      ensures Even(c, unit, s) && size % unit == 0 ==> Even(c, unit, r)
    {
      ghost var k := Place(s, x);
      var done := Grow(x, size, s);
      if done {
        GrowInv(c, s, k, size);
        GrowKeeps(c, s, k, size);
        r := GrowAt(c, s, k, size);
        ResizedHere(c, s, r, x, n, Request(c, unit, size), x + c.hdr + size);
        InPool(c, s, x);
        CarriedHere(c, s, bytes, x, SizeOf(c, s, x));
        if Even(c, unit, s) && size % unit == 0 {
          CutAligned(c, unit, s, k, size);
        }
        y := Some(x);
      } else {
        y, r := Move(x, size, n, s);
      }
    }

    /** rt_memheap_realloc to a size that is not larger: the rest becomes a block if it is worth it. */
    method Reduce(x: nat, size: nat, ghost n: nat, ghost s: State) returns (ghost r: State)
      requires Taken(s, x) && SizeOf(c, s, x) >= size && n <= size
      modifies `blk, `fre, `used, `available, `maxUsed
      ensures Represents(r) && Resized(c, s, r, x, x, n, Request(c, unit, size))
      ensures Carried(c, s, bytes, bytes, x, x, size)
      ensures r == Reduced(c, s, Place(s, x), size)
      ensures Even(c, unit, s) && size % unit == 0 ==> Even(c, unit, r)
    {
      CarriedHere(c, s, bytes, x, size);
      ghost var k := Place(s, x);
      var old' := ItemSize(x, s);
      r := s;
      if size + c.hdr + c.mini >= old' {
        assert Block(s.chain, x, s.chain[k + 1]);
        ResizedHere(c, s, s, x, n, Request(c, unit, size), s.chain[k + 1]);
      } else {
        Shrink(x, size, s);
        ShrinkInv(c, s, k, size);
        r := ShrinkAt(c, s, k, size);
        ResizedHere(c, s, r, x, n, Request(c, unit, size), x + c.hdr + size);
        if Even(c, unit, s) && size % unit == 0 {
          CutAligned(c, unit, s, k, size);
        }
      }
    }

    /** rt_memheap_realloc of block `x` to `size` bytes. */
    method ResizeBlock(x: nat, size: nat, ghost n: nat, ghost s: State) returns (y: Option<nat>, ghost r: State)
      requires Taken(s, x) && n <= size
      modifies this
      ensures Represents(r) && (y.None? ==> r == s && bytes == old(bytes))
      ensures y.None? <==> Stuck(c, unit, s, old(available), x, size)
      ensures y.Some? ==> Resized(c, s, r, x, y.value, n, Request(c, unit, size))
      ensures y.Some? ==> Carried(c, s, old(bytes), bytes, x, y.value, Least(SizeOf(c, s, x), size))
      ensures size <= SizeOf(c, s, x) ==> y == Some(x) && r == Reduced(c, s, Place(s, x), size)
      ensures CanGrow(c, s, Place(s, x), size) ==> y == Some(x)
      ensures Even(c, unit, s) && size % unit == 0 ==> Even(c, unit, r)
    {
      var old' := ItemSize(x, s);
      if size > old' {
        y, r := Enlarge(x, size, n, s);
      } else {
        r := Reduce(x, size, n, s);
        y := Some(x);
      }
    }

    /**
     rt_memheap_realloc of a block, to more than nothing. None means that nothing was changed; otherwise
     the data is kept, as far as the smaller of the two sizes.
     */
    method Resize(p: nat, n: nat, ghost s: State) returns (p': Option<nat>, ghost r: State)
      requires Represents(s) && Owned(c, s, Some(p)) && n > 0
      modifies this
      ensures Represents(r) && Owned(c, s, Some(p)) && p - c.hdr in s.chain && Place(s, p - c.hdr) + 1 < |s.chain|
      ensures p'.None? ==> r == s && bytes == old(bytes)
      ensures p'.None? <==> Stuck(c, unit, s, old(available), p - c.hdr, Request(c, unit, n))
      ensures p'.Some? ==>
        && p'.value >= c.hdr
        && Resized(c, s, r, p - c.hdr, p'.value - c.hdr, n, Request(c, unit, Request(c, unit, n)))
      ensures Request(c, unit, n) <= SizeOf(c, s, p - c.hdr) ==>
        p' == Some(p) && r == Reduced(c, s, Place(s, p - c.hdr), Request(c, unit, n))
      ensures CanGrow(c, s, Place(s, p - c.hdr), Request(c, unit, n)) ==> p' == Some(p)
      ensures p'.Some? ==> Carried(c, s, old(bytes), bytes, p - c.hdr, p'.value - c.hdr,
                                   Least(SizeOf(c, s, p - c.hdr), Request(c, unit, n)))
      ensures Even(c, unit, s) ==> Even(c, unit, r) && (p'.Some? ==> p'.value % unit == 0)
    {
      var x := p - c.hdr;
      PlaceOf(c, s, x);
      var size := Request(c, unit, n);
      RequestAligned(c, unit, n);
      var y;
      y, r := ResizeBlock(x, size, n, s);
      if y.None? {
        return None, r;
      }
      p' := Some(y.value + c.hdr);
      ResizedAligned(c, unit, s, r, x, p'.value, n, Request(c, unit, size));
    }

    /** rt_memcpy within the pool. */
    method Copy(dst: nat, src: nat, n: nat)
      requires dst + n <= |bytes| && src + n <= |bytes|
      modifies `bytes
      ensures |bytes| == |old(bytes)| && bytes[dst..dst + n] == old(bytes)[src..src + n]
      ensures forall i | 0 <= i < |bytes| && !(dst <= i < dst + n) :: bytes[i] == old(bytes)[i]
    {
      bytes := bytes[..dst] + bytes[src..src + n] + bytes[dst + n..];
    }

    /** Allocate anew, copy, and free. */
    method Move(x: nat, size: nat, ghost n: nat, ghost s: State) returns (y: Option<nat>, ghost r: State)
      requires Taken(s, x) && SizeOf(c, s, x) < size && n <= size
      modifies this
      ensures Represents(r) && (y.None? ==> r == s && bytes == old(bytes))
      ensures y.None? <==> NoRoom(c, s, old(available), Request(c, unit, size))
      ensures y.Some? ==>
        Resized(c, s, r, x, y.value, n, Request(c, unit, size))
        && Carried(c, s, old(bytes), bytes, x, y.value, SizeOf(c, s, x))
      ensures y.Some? ==> Moved(c, s, r, x, Request(c, unit, size), y.value)
      ensures Even(c, unit, s) ==> Even(c, unit, r)
    {
      InPool(c, s, x);
      var old' := ItemSize(x, s);
      var p;
      p, r := Alloc(size, s);
      if p.None? {
        return None, r;
      }
      y := Some(HeaderOf(p.value));
      ghost var t := r;
      r := MoveTo(x, p.value, old', size, n, s, t);
      MovedThere(c, s, t, r, x, Request(c, unit, size), p.value, y.value);
    }

    /** The block at `p`, just allocated for the data of block `x`, takes its place. */
    method MoveTo(x: nat, p: nat, have: nat, ghost size: nat, ghost n: nat, ghost s: State, ghost t: State)
      returns (ghost r: State)
      requires Represents(t) && Inv(c, s) && Granted(c, s, t, Request(c, unit, size), p)
      requires x in s.used && x != c.pool - c.hdr && n <= size && have <= size && x + c.hdr + have <= c.pool
      modifies this
      ensures Represents(r) && (Even(c, unit, t) ==> Even(c, unit, r))
      ensures Resized(c, s, r, x, HeaderOf(p), n, Request(c, unit, size))
      ensures Carried(c, s, old(bytes), bytes, x, HeaderOf(p), have)
      ensures FreedIs(t, r, x)
    {
      ghost var e;
      e, r := MoveReady(c, unit, s, t, x, p, size, n);
      Transfer(x, p, have, s, t, e);
    }

    /** The header of the block with data at `p`. */
    function HeaderOf(p: nat): nat {
      if p < c.hdr then 0 else p - c.hdr
    }

    /** The data of block `x` goes to the block just allocated at `p`, and `x` is freed. */
    method Transfer(x: nat, p: nat, n: nat, ghost s: State, ghost t: State, ghost e: nat)
      requires Taken(t, x) && p >= c.hdr && Keeps(s, t, p - c.hdr) && Block(t.chain, p - c.hdr, e)
        && p - c.hdr !in s.used
      requires x + c.hdr + n <= c.pool && p + n <= e <= c.pool
      modifies this
      ensures Represents(FreeAt(t, Place(t, x))) && Carried(c, s, old(bytes), bytes, x, p - c.hdr, n)
    {
      Copy(p, x + c.hdr, n);
      CopyCarries(c, s, t, old(bytes), bytes, x, p, e, n);
      FreeBlock(x, t);
    }

    /** rt_memheap_realloc: a size of zero frees, RT_NULL allocates. */
    method Realloc(ptr: Option<nat>, n: nat, ghost s: State) returns (p: Option<nat>, ghost r: State)
      requires Represents(s) && Owned(c, s, ptr)
      modifies this
      ensures Represents(r)
      ensures n == 0 ==> p == None && (ptr.None? ==> r == s) && (ptr.Some? ==> Freed(c, s, r, ptr.value - c.hdr))
      ensures n > 0 && p.None? ==> r == s && bytes == old(bytes)
      ensures n > 0 && ptr.None? ==>
        && (p.None? <==> NoRoom(c, s, old(available), Request(c, unit, Request(c, unit, n))))
        && (p.Some? ==> Granted(c, s, r, Request(c, unit, Request(c, unit, n)), p.value))
      ensures n > 0 && ptr.Some? ==> var x := ptr.value - c.hdr;
        && x in s.chain && Place(s, x) + 1 < |s.chain|
        && (p.None? <==> Stuck(c, unit, s, old(available), x, Request(c, unit, n)))
        && (p.Some? ==>
              && p.value >= c.hdr && Resized(c, s, r, x, p.value - c.hdr, n, Request(c, unit, Request(c, unit, n)))
              && Carried(c, s, old(bytes), bytes, x, p.value - c.hdr, Least(SizeOf(c, s, x), Request(c, unit, n))))
      ensures Even(c, unit, s) ==> Even(c, unit, r) && (p.Some? ==> p.value % unit == 0)
    {
      if n == 0 {
        r := Free(ptr, s);
        return None, r;
      }
      if ptr.None? {
        p, r := Alloc(Request(c, unit, n), s);
        return;
      }
      p, r := Resize(ptr.value, n, s);
    }
  }

  function Least(a: int, b: int): int { if a < b then a else b }
  function Greatest(a: int, b: int): int { if a < b then b else a }

  /** What rt_memheap_alloc gave: the first block of the free list that is large enough. */
  ghost predicate Granted(c: Config, s: State, r: State, size: nat, p: nat) {
    exists i :: 0 <= i < |s.free| && p == s.free[i] + c.hdr && Handed(c, s, r, size, i)
  }

  /** Block `k` cut down to `size` bytes, if what is left over is worth a block. */
  function Reduced(c: Config, s: State, k: nat, size: nat): State
    requires k + 1 < |s.chain|
  {
    if size + c.hdr + c.mini < SizeAt(c, s, k) then ShrinkAt(c, s, k, size) else s
  }

  /** Block `y` was allocated for `size` bytes, and then block `x` freed. */
  ghost predicate Moved(c: Config, s: State, r: State, x: nat, size: nat, y: nat) {
    exists t :: Granted(c, s, t, size, y + c.hdr) && FreedIs(t, r, x)
  }

  lemma MovedThere(c: Config, s: State, t: State, r: State, x: nat, size: nat, p: nat, y: nat)
    requires Granted(c, s, t, size, p) && FreedIs(t, r, x) && p >= c.hdr && y == p - c.hdr
    ensures Moved(c, s, r, x, size, y)
  {
  }

  ghost predicate FreedIs(t: State, r: State, x: nat) {
    x in t.chain && Place(t, x) + 1 < |t.chain| && r == FreeAt(t, Place(t, x))
  }

  /**
   Block `x` cannot be resized to `size` bytes: it is too small, cannot grow in place, and there is no room
   elsewhere.
   */
  ghost predicate Stuck(c: Config, unit: nat, s: State, available: int, x: nat, size: nat)
    requires unit > 0 && x in s.chain && Place(s, x) + 1 < |s.chain|
  {
    && size > SizeOf(c, s, x) && !CanGrow(c, s, Place(s, x), size)
    && NoRoom(c, s, available, Request(c, unit, size))
  }

  /** The first `n` bytes of block `x` are now in block `y`, and the data of all other blocks in use is untouched. */
  ghost predicate Carried(c: Config, s: State, before: seq<int>, after: seq<int>, x: nat, y: nat, n: int) {
    && |before| == |after| && 0 <= n && x + c.hdr + n <= |before| && y + c.hdr + n <= |after|
    && after[y + c.hdr..y + c.hdr + n] == before[x + c.hdr..x + c.hdr + n]
    && forall z, e | z in s.used && z != x && Block(s.chain, z, e) :: SameData(before, after, z + c.hdr, e)
  }

  lemma CarriedHere(c: Config, s: State, bytes: seq<int>, x: nat, n: int)
    requires Inv(c, s) && x in s.chain && Place(s, x) + 1 < |s.chain| && 0 <= n <= SizeOf(c, s, x) && |bytes| == c.pool
    ensures Carried(c, s, bytes, bytes, x, x, n)
  {
    InPool(c, s, x);
  }

  lemma InPool(c: Config, s: State, x: nat)
    requires Inv(c, s) && x in s.chain && Place(s, x) + 1 < |s.chain|
    ensures 0 <= SizeOf(c, s, x) && x + c.hdr + SizeOf(c, s, x) + c.hdr <= c.pool
  {
    var k, n := Place(s, x), |s.chain| - 1;
    Step(c, s, k);
    if k + 1 < n {
      SortedAt(c, s.chain, k + 1, n);
    }
  }

  /** The block at `p`, just allocated, is where the data of block `x` can go. */
  lemma MoveReady(c: Config, unit: nat, s: State, t: State, x: nat, p: nat, size: nat, n: nat)
    returns (e: nat, r: State)
    requires Inv(c, s) && unit > 0 && Granted(c, s, t, Request(c, unit, size), p) && x in s.used
      && x != c.pool - c.hdr && n <= size
    ensures p >= c.hdr && Inv(c, t) && Keeps(s, t, p - c.hdr) && Block(t.chain, p - c.hdr, e) && p - c.hdr !in s.used
    ensures p + size <= e <= c.pool && x in t.used && x in t.chain && Place(t, x) + 1 < |t.chain|
    ensures r == FreeAt(t, Place(t, x)) && Resized(c, s, r, x, p - c.hdr, n, Request(c, unit, size))
    ensures Even(c, unit, t) ==> Even(c, unit, r)
  {
    e := Taking(c, unit, s, t, size, p);
    r := MovedOk(c, s, t, x, p - c.hdr, n, Request(c, unit, size), e);
    if Even(c, unit, t) {
      FreeAligned(c, unit, t, Place(t, x));
    }
  }

  /** What a block just allocated is good for. */
  lemma Taking(c: Config, unit: nat, s: State, t: State, size: nat, p: nat) returns (e: nat)
    requires Inv(c, s) && unit > 0 && Granted(c, s, t, Request(c, unit, size), p)
    ensures p >= c.hdr && p - c.hdr !in s.used && Inv(c, t) && t.used == s.used + {p - c.hdr} && Keeps(s, t, p - c.hdr)
    ensures Block(t.chain, p - c.hdr, e) && p + size <= e <= c.pool && e <= p + Request(c, unit, size) + c.hdr + c.mini
  {
    var i :| 0 <= i < |s.free| && p == s.free[i] + c.hdr && Handed(c, s, t, Request(c, unit, size), i);
    e := TakingAt(c, s, s.free[i], Request(c, unit, size));
  }

  lemma TakingAt(c: Config, s: State, x: nat, size: nat) returns (e: nat)
    requires Inv(c, s) && x in s.free && x in s.chain && Place(s, x) + 1 < |s.chain| && SizeOf(c, s, x) >= size
    ensures x !in s.used && var t := AllocAt(c, s, Place(s, x), size);
      && Inv(c, t) && t.used == s.used + {x} && Keeps(s, t, x) && Block(t.chain, x, e)
      && x + c.hdr + size <= e <= c.pool && e <= x + c.hdr + size + c.hdr + c.mini
  {
    PlaceOf(c, s, x);
    e := AllocInv(c, s, Place(s, x), size);
    BlockInPool(c, AllocAt(c, s, Place(s, x), size), x, e);
  }

  lemma BlockInPool(c: Config, s: State, x: nat, e: nat)
    requires Inv(c, s) && Block(s.chain, x, e)
    ensures e <= c.pool
  {
    var k :| 0 <= k < |s.chain| - 1 && s.chain[k] == x && s.chain[k + 1] == e;
    if k + 1 < |s.chain| - 1 {
      SortedAt(c, s.chain, k + 1, |s.chain| - 1);
    }
  }

  lemma AllocEven(c: Config, unit: nat, s: State, r: State, n: nat, p: nat)
    requires Inv(c, s) && unit > 0 && Granted(c, s, r, Request(c, unit, n), p)
    ensures Even(c, unit, s) ==> Even(c, unit, r) && p % unit == 0
  {
    var i :| 0 <= i < |s.free| && p == s.free[i] + c.hdr && Handed(c, s, r, Request(c, unit, n), i);
    RequestAligned(c, unit, n);
    if Even(c, unit, s) {
      CutAligned(c, unit, s, Place(s, s.free[i]), Request(c, unit, n));
      PointerAligned(c, unit, s, s.free[i]);
    }
  }

  /** Copying into the new block touches no other block in use. */
  lemma CopyCarries(c: Config, s: State, t: State, before: seq<int>, after: seq<int>, x: nat, p: nat, e: nat, n: nat)
    requires Inv(c, t) && p >= c.hdr && Keeps(s, t, p - c.hdr) && Block(t.chain, p - c.hdr, e) && p - c.hdr !in s.used
    requires |before| == |after| == c.pool && x + c.hdr + n <= c.pool && p + n <= e <= c.pool
    requires after[p..p + n] == before[x + c.hdr..x + c.hdr + n]
    requires forall i | 0 <= i < |after| && !(p <= i < p + n) :: after[i] == before[i]
    ensures Carried(c, s, before, after, x, p - c.hdr, n)
  {
    var y := p - c.hdr;
    forall z, f | z in s.used && z != x && Block(s.chain, z, f) ensures SameData(before, after, z + c.hdr, f) {
      assert z != y && Block(t.chain, z, f);
      BlocksDisjoint(c, t, y, e, z, f);
    }
  }

  /** A pointer this heap has handed out, or RT_NULL. */
  ghost predicate Owned(c: Config, s: State, ptr: Option<nat>) {
    ptr.Some? ==> ptr.value >= c.hdr && ptr.value - c.hdr in s.used && ptr.value - c.hdr != c.pool - c.hdr
  }

  /** Block `x` is free again, and nobody else has noticed. */
  ghost predicate Freed(c: Config, s: State, r: State, x: nat) {
    Inv(c, r) && r.used == s.used - {x} && Keeps(s, r, x)
  }

  /** What was in block `x` is now in block `y`, which holds `n` bytes and hardly more than `most`. */
  ghost predicate Resized(c: Config, s: State, r: State, x: nat, y: nat, n: nat, most: nat) {
    && Inv(c, r) && r.used == s.used - {x} + {y} && (y != x ==> y !in s.used) && Keeps(s, r, x)
    && Snug(c, r.chain, y, n, most)
  }

  /** Block `y` has room for `n` bytes, and less than another block needs beyond `most`. */
  ghost predicate Snug(c: Config, chain: seq<nat>, y: nat, n: nat, most: nat) {
    exists e: nat :: Block(chain, y, e) && y + c.hdr + n <= e <= y + 2 * c.hdr + most + c.mini
  }

  /** Block `y` has room for `n` bytes. */
  ghost predicate Roomy(c: Config, chain: seq<nat>, y: nat, n: nat) {
    exists e :: Block(chain, y, e) && y + c.hdr + n <= e
  }

  lemma ResizedHere(c: Config, s: State, r: State, x: nat, n: nat, most: nat, e: nat)
    requires Inv(c, r) && x in s.used && r.used == s.used && Keeps(s, r, x) && Block(r.chain, x, e)
      && x + c.hdr + n <= e <= x + 2 * c.hdr + most + c.mini
    ensures Resized(c, s, r, x, x, n, most)
  {
  }

  lemma KeepsTwice(s: State, r: State, t: State, x: nat, y: nat)
    requires Keeps(s, r, y) && Keeps(r, t, x) && y !in s.used
    ensures Keeps(s, t, x)
  {
  }

  lemma FreeOkAt(c: Config, s: State, k: nat)
    requires Inv(c, s) && k + 1 < |s.chain| && s.chain[k] in s.used
    ensures Freed(c, s, FreeAt(s, k), s.chain[k])
  {
    FreeKeeps(s, k);
    FreeInv(c, s, k);
  }

  lemma FreeOk(c: Config, s: State, x: nat) returns (r: State)
    requires Inv(c, s) && x in s.used && x != c.pool - c.hdr
    ensures x in s.chain && Place(s, x) + 1 < |s.chain| && r == FreeAt(s, Place(s, x)) && Freed(c, s, r, x)
  {
    PlaceOf(c, s, x);
    var k := Place(s, x);
    r := FreeAt(s, k);
    FreeOkAt(c, s, k);
  }

  /** After allocating block `y`, block `x` can be freed: `y` keeps what it has. */
  lemma MovedOk(c: Config, s: State, r: State, x: nat, y: nat, n: nat, most: nat, e: nat) returns (t: State)
    requires Inv(c, s) && Inv(c, r) && x in s.used && x != c.pool - c.hdr && y !in s.used && r.used == s.used + {y}
    requires Keeps(s, r, y) && Block(r.chain, y, e) && y + c.hdr + n <= e <= y + 2 * c.hdr + most + c.mini
    ensures x in r.chain && Place(r, x) + 1 < |r.chain| && x in r.used && t == FreeAt(r, Place(r, x))
    ensures Resized(c, s, t, x, y, n, most)
  {
    t := FreeOk(c, r, x);
    KeepsTwice(s, r, t, x, y);
    assert Block(t.chain, y, e);
  }

  /** The first block of the free list that is large enough was handed out. */
  ghost predicate Handed(c: Config, s: State, r: State, size: nat, i: nat)
    requires i < |s.free|
  {
    var x := s.free[i];
    && (forall j | 0 <= j < i :: TooSmall(c, s, size, j))
    && x in s.chain && Place(s, x) + 1 < |s.chain| && SizeOf(c, s, x) >= size && r == AllocAt(c, s, Place(s, x), size)
  }

  /** The blocks after block `k` was joined with the one before it and the one behind it, or not. */
  ghost function Merged(chain: seq<nat>, k: nat, left: bool, right: bool): seq<nat>
    requires k + 1 < |chain| && (left ==> k > 0) && (right ==> k + 2 < |chain|)
  {
    if left then Replace(chain, k - 1, if right then 2 else 1, [])
    else if right then Replace(chain, k, 1, [])
    else chain
  }

  ghost function MergedFree(free: seq<nat>, x: nat, next: nat, left: bool, right: bool): seq<nat> {
    var rest := if right then Remove(free, next) else free;
    if left then rest else [x] + rest
  }

  ghost predicate LeftFree(s: State, k: nat)
    requires k < |s.chain|
  {
    k > 0 && s.chain[k - 1] !in s.used
  }

  ghost predicate RightFree(s: State, k: nat)
    requires k + 1 < |s.chain|
  {
    s.chain[k + 1] !in s.used
  }

  /** rt_memheap_free, merge by merge, and the bytes that become available. */
  lemma FreeParts(c: Config, s: State, k: nat) returns (r: State)
    requires Inv(c, s) && k + 1 < |s.chain| && s.chain[k] in s.used
    ensures r == FreeAt(s, k) && Inv(c, r) && (RightFree(s, k) ==> k + 2 < |s.chain|)
    ensures s.chain[k] !in s.free && (RightFree(s, k) ==> s.chain[k + 1] in s.free)
    ensures r.chain == Merged(s.chain, k, LeftFree(s, k), RightFree(s, k)) && r.used == s.used - {s.chain[k]}
    ensures r.free == MergedFree(s.free, s.chain[k], s.chain[k + 1], LeftFree(s, k), RightFree(s, k))
    ensures FreeBytes(c, r.chain, r.used) == FreeBytes(c, s.chain, s.used) + SizeAt(c, s, k)
      + (if LeftFree(s, k) then c.hdr else 0) + (if RightFree(s, k) then c.hdr else 0)
    ensures SizeAt(c, s, k) >= 0
  {
    r := FreeAt(s, k);
    FreeInv(c, s, k);
    FreeReady(c, s, k);
    Step(c, s, k);
  }

  lemma NotInRemoved(q: seq<nat>, a: nat, x: nat)
    requires x !in q
    ensures x !in Remove(q, a)
  {
  }

  lemma FreeReady(c: Config, s: State, k: nat)
    requires Inv(c, s) && k + 1 < |s.chain| && s.chain[k] in s.used
    ensures s.chain[k] !in s.free && (s.chain[k + 1] !in s.used ==> s.chain[k + 1] in s.free)
  {
    assert ItemOk(s, s.chain[k]) && ItemOk(s, s.chain[k + 1]);
  }

  /** rt_memheap_realloc can grow block `k` in place. */
  ghost predicate CanGrow(c: Config, s: State, k: nat, size: nat)
    requires k + 1 < |s.chain|
  {
    s.chain[k + 1] !in s.used && k + 2 < |s.chain| && SizeAt(c, s, k + 1) + SizeAt(c, s, k) > size + c.mini
  }

  lemma NotInReplaced(q: seq<nat>, k: nat, x: nat)
    requires k + 2 < |q| && x !in q
    ensures x !in Replace(q, k, 1, [])
  {
  }

  lemma GrowReady(c: Config, s: State, k: nat, size: nat, q: nat)
    requires Inv(c, s) && k + 1 < |s.chain| && CanGrow(c, s, k, size) && SizeAt(c, s, k) < size
      && q == s.chain[k] + c.hdr + size
    ensures NoDup(s.free) && s.chain[k + 1] in s.free && q !in s.chain && q !in s.free
  {
    assert ItemOk(s, q) && ItemOk(s, s.chain[k + 1]);
    NotABlock(c, s, k + 1, q);
  }

  /* Clients. */

  lemma FreeOfTwo(c: Config, a: nat, b: nat, used: set<nat>)
    ensures FreeBytes(c, [a, b], used) == if a in used then 0 else b - a - c.hdr
  {
    assert [a, b][1..] == [b];
  }

  /** A new heap does not give out all that is available, though it is one block: the test of the size is strict. */
  method WholePoolRefused(c: Config, unit: nat) returns (p: Option<nat>)
    requires c.Ok() && unit > 0
    ensures p == None
  {
    var h := new Heap(c, unit);
    ghost var s := State([0, c.pool - c.hdr], {c.pool - c.hdr}, [0]);
    FreeOfTwo(c, 0, c.pool - c.hdr, s.used);
    p, s := h.Alloc(c.pool - 2 * c.hdr, s);
  }

  /** A new heap serves a request of `n` bytes from its first byte, and keeps the rest as a block. */
  lemma FirstOfAll(c: Config, size: nat, r: State, p: nat)
    requires c.Ok() && c.pool >= 3 * c.hdr + size + c.mini
    requires Granted(c, State([0, c.pool - c.hdr], {c.pool - c.hdr}, [0]), r, size, p)
    ensures p == c.hdr && r.chain == [0, c.hdr + size, c.pool - c.hdr] && r.free == [c.hdr + size]
  {
  }

  lemma FirstFits(c: Config, s: State, k: nat, available: int, size: nat)
    requires Inv(c, s) && |s.free| == 1 && k + 1 < |s.chain| && s.chain[k] == s.free[0]
      && s.chain[k + 1] >= s.chain[k] + c.hdr + size
    requires size < available
    ensures !NoRoom(c, s, available, size)
  {
    PlaceOf(c, s, s.free[0]);
    DistinctBlocks(c, s, k, Place(s, s.free[0]));
    assert !TooSmall(c, s, size, 0);
  }

  lemma DistinctBlocks(c: Config, s: State, i: nat, j: nat)
    requires Inv(c, s) && i < |s.chain| && j < |s.chain| && s.chain[i] == s.chain[j]
    ensures i == j
  {
    if i < j {
      SortedAt(c, s.chain, i, j);
    } else if j < i {
      SortedAt(c, s.chain, j, i);
    }
  }

  /** The free bytes of a heap with one block in use, of `size` bytes. */
  lemma FreeBehind(c: Config, s: State, size: nat)
    requires Inv(c, s) && s.chain == [0, c.hdr + size, c.pool - c.hdr] && s.free == [c.hdr + size]
    ensures FreeBytes(c, s.chain, s.used) == c.pool - 3 * c.hdr - size
  {
    assert ItemOk(s, 0) && ItemOk(s, c.hdr + size);
    assert s.chain[1..] == [c.hdr + size, c.pool - c.hdr];
    FreeOfTwo(c, c.hdr + size, c.pool - c.hdr, s.used);
  }

  /** A sum of multiples and one other number. */
  lemma NotAligned(unit: nat, a: nat, b: nat)
    requires unit > 0 && a % unit == 0 && b % unit != 0
    ensures (a + b) % unit != 0
  {
    if (a + b) % unit == 0 {
      Align.AddMod(a + b, a, unit);
    }
  }

  /** A new heap, after a request for less than the least block. */
  method OneSmall(c: Config, unit: nat, n: nat) returns (h: Heap, ghost s: State)
    requires c.Ok() && unit > 0 && Align.Up(n, unit) < c.mini && c.pool > 3 * c.hdr + 2 * c.mini
    ensures fresh(h) && h.c == c && h.unit == unit && h.Represents(s)
    ensures s.chain == [0, c.hdr + c.mini, c.pool - c.hdr] && s.free == [c.hdr + c.mini]
    ensures h.available == c.pool - 3 * c.hdr - c.mini
  {
    h := new Heap(c, unit);
    s := State([0, c.pool - c.hdr], {c.pool - c.hdr}, [0]);
    FreeOfTwo(c, 0, c.pool - c.hdr, s.used);
    FirstFits(c, s, 0, h.available, c.mini);
    var p;
    p, s := h.Alloc(n, s);
    FirstOfAll(c, c.mini, s, p.value);
    FreeBehind(c, s, c.mini);
  }

  /**
   If the least block is not a multiple of the unit, the pointer to the block behind a small one is
   misaligned, in every heap with room for two. So all pointers of all runs are aligned exactly if it is.
   */
  method Misaligned(c: Config, unit: nat, n: nat) returns (q: Option<nat>)
    requires c.Ok() && unit > 0 && c.hdr % unit == 0 && c.mini % unit != 0
    requires Align.Up(n, unit) < c.mini && c.pool > 3 * c.hdr + 2 * c.mini
    ensures q.Some? && q.value % unit != 0
  {
    var h, s := OneSmall(c, unit, n);
    FirstFits(c, s, 1, h.available, c.mini);
    q, s := h.Alloc(n, s);
    assert q.Some? && q.value == 2 * c.hdr + c.mini;
    Align.AddMod(c.hdr, c.hdr, unit);
    NotAligned(unit, 2 * c.hdr, c.mini);
  }

  /**
   With RT_ALIGN_SIZE 8 and a least block of 12 bytes, the second of two requests for one byte gets such a
   pointer.
   */
  method EightByteUnits() returns (q: Option<nat>)
    ensures q.Some? && q.value % 8 != 0
  {
    q := Misaligned(Config(24, 12, 1024), 8, 1);
  }

  /** A pointer a client holds: an aligned one to a block in use, with room for what was asked for. */
  ghost predicate Good(c: Config, unit: nat, s: State, x: Held)
    requires unit > 0
  {
    Owned(c, s, Some(x.p)) && x.p % unit == 0 && Roomy(c, s.chain, x.p - c.hdr, x.size)
  }

  ghost predicate Holding(c: Config, unit: nat, s: State, held: seq<Held>)
    requires unit > 0
  {
    Distinct(held) && forall i | 0 <= i < |held| :: Good(c, unit, s, held[i])
  }

  /** What another call does to a pointer held. */
  lemma StaysGood(c: Config, unit: nat, s: State, r: State, y: nat, x: Held)
    requires unit > 0 && Good(c, unit, s, x) && Keeps(s, r, y) && x.p - c.hdr != y
    ensures Good(c, unit, r, x)
  {
    var e :| Block(s.chain, x.p - c.hdr, e) && x.p - c.hdr + c.hdr + x.size <= e;
    assert Block(r.chain, x.p - c.hdr, e);
  }

  lemma Acquired(c: Config, unit: nat, s: State, r: State, n: nat, held: seq<Held>, p: nat)
    requires Inv(c, s) && unit > 0 && Holding(c, unit, s, held) && Granted(c, s, r, Request(c, unit, n), p)
      && p % unit == 0
    ensures Holding(c, unit, r, held + [Held(p, n)])
  {
    var e := Taking(c, unit, s, r, n, p);
    assert ItemOk(s, c.pool - c.hdr);
    forall i | 0 <= i < |held| ensures held[i].p != p && Good(c, unit, r, held[i]) {
      assert Good(c, unit, s, held[i]);
      StaysGood(c, unit, s, r, p - c.hdr, held[i]);
    }
    assert Good(c, unit, r, Held(p, n));
  }

  lemma Released(c: Config, unit: nat, s: State, r: State, held: seq<Held>, k: nat)
    requires unit > 0 && Holding(c, unit, s, held) && k < |held| && Freed(c, s, r, held[k].p - c.hdr)
    ensures Holding(c, unit, r, Without(held, k))
  {
    var t := Without(held, k);
    forall i | 0 <= i < |t| ensures Good(c, unit, r, t[i]) {
      assert Good(c, unit, s, t[i]) && Good(c, unit, s, held[k]) && t[i].p != held[k].p;
      StaysGood(c, unit, s, r, held[k].p - c.hdr, t[i]);
    }
  }

  lemma Exchanged(c: Config, unit: nat, s: State, r: State, held: seq<Held>, k: nat, p: nat, n: nat,
                  most: nat)
    requires Inv(c, s) && unit > 0 && Holding(c, unit, s, held) && k < |held| && p >= c.hdr && p % unit == 0
    requires Resized(c, s, r, held[k].p - c.hdr, p - c.hdr, n, most)
    ensures Holding(c, unit, r, held[k := Held(p, n)])
  {
    var t, x := held[k := Held(p, n)], held[k].p - c.hdr;
    assert Good(c, unit, s, held[k]);
    forall i | 0 <= i < |held| && i != k ensures Good(c, unit, r, held[i]) && held[i].p != p {
      assert Good(c, unit, s, held[i]);
      StaysGood(c, unit, s, r, x, held[i]);
    }
    assert Good(c, unit, r, Held(p, n));
  }

  method ClientAcquire(h: Heap, held: seq<Held>, n: nat, ghost s: State) returns (r: Option<nat>, ghost t: State)
    requires h.Represents(s) && Even(h.c, h.unit, s) && Holding(h.c, h.unit, s, held)
    modifies h
    ensures h.Represents(t) && Even(h.c, h.unit, t) && Holding(h.c, h.unit, t, Play(held, Acquire(n), r))
    ensures r.Some? ==> r.value % h.unit == 0
  {
    r, t := h.Alloc(n, s);
    if r.Some? {
      Acquired(h.c, h.unit, s, t, n, held, r.value);
    }
  }

  method ClientRelease(h: Heap, held: seq<Held>, k: nat, ghost s: State) returns (ghost t: State)
    requires h.Represents(s) && Even(h.c, h.unit, s) && Holding(h.c, h.unit, s, held) && k < |held|
    modifies h
    ensures h.Represents(t) && Even(h.c, h.unit, t) && Holding(h.c, h.unit, t, Without(held, k))
  {
    assert Good(h.c, h.unit, s, held[k]);
    t := h.Free(Some(held[k].p), s);
    Released(h.c, h.unit, s, t, held, k);
  }

  method ClientResize(h: Heap, held: seq<Held>, k: nat, n: nat, ghost s: State) returns (r: Option<nat>, ghost t: State)
    requires h.Represents(s) && Even(h.c, h.unit, s) && Holding(h.c, h.unit, s, held) && k < |held| && n > 0
    modifies h
    ensures h.Represents(t) && Even(h.c, h.unit, t) && Holding(h.c, h.unit, t, Play(held, Change(k, n), r))
    ensures r.Some? ==> r.value % h.unit == 0
  {
    assert Good(h.c, h.unit, s, held[k]);
    r, t := h.Resize(held[k].p, n, s);
    if r.Some? {
      Exchanged(h.c, h.unit, s, t, held, k, r.value, n, Request(h.c, h.unit, Request(h.c, h.unit, n)));
    }
  }

  method ClientStep(h: Heap, held: seq<Held>, op: Op, ghost s: State) returns (r: Option<nat>, ghost t: State)
    requires h.Represents(s) && Even(h.c, h.unit, s) && Holding(h.c, h.unit, s, held)
    modifies h
    ensures h.Represents(t) && Even(h.c, h.unit, t) && Holding(h.c, h.unit, t, Play(held, op, r))
    ensures r.Some? ==> r.value % h.unit == 0
  {
    r, t := None, s;
    match op {
      case Acquire(n) => r, t := ClientAcquire(h, held, n, s);
      case Release(k) =>
        if k < |held| {
          t := ClientRelease(h, held, k, s);
        }
      case Change(k, n) =>
        if k < |held| && n == 0 {
          t := ClientRelease(h, held, k, s);
        } else if k < |held| {
          r, t := ClientResize(h, held, k, n, s);
        }
    }
  }

  lemma FreshEven(c: Config, unit: nat)
    requires c.Ok() && unit > 0 && c.hdr % unit == 0 && c.mini % unit == 0 && c.pool % unit == 0
    ensures Even(c, unit, State([0, c.pool - c.hdr], {c.pool - c.hdr}, [0]))
  {
    Align.AddMod(c.pool, c.hdr, unit);
  }

  /**
   Any client, any sequence of calls: if headers, the least block and the pool are multiples of the unit,
   every pointer returned is aligned, and what the client holds according to what its calls returned are
   different blocks in use, each with room for what it asked for.
   */
  method Client(c: Config, unit: nat, ops: seq<Op>) returns (results: seq<Option<nat>>, ghost s: State)
    requires c.Ok() && unit > 0 && c.hdr % unit == 0 && c.mini % unit == 0 && c.pool % unit == 0
    ensures |results| == |ops| && forall i | 0 <= i < |results| && results[i].Some? :: results[i].value % unit == 0
    ensures Inv(c, s) && Holding(c, unit, s, Played(ops, results))
  {
    var h := new Heap(c, unit);
    s := State([0, c.pool - c.hdr], {c.pool - c.hdr}, [0]);
    FreshEven(c, unit);
    results := [];
    var held: seq<Held> := [];
    for n := 0 to |ops|
      invariant h.c == c && h.unit == unit && h.Represents(s) && Even(c, unit, s) && Holding(c, unit, s, held)
      invariant |results| == n && held == Played(ops[..n], results)
      invariant forall i | 0 <= i < n && results[i].Some? :: results[i].value % unit == 0
    {
      var r;
      r, s := ClientStep(h, held, ops[n], s);
      PlayedOn(ops, results, n, r);
      held, results := Play(held, ops[n], r), results + [r];
    }
    assert ops[..|ops|] == ops;
  }
}
