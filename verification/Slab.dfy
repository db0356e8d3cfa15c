/**
 The slab allocator (rt_malloc and rt_free in src/slab.c): zones of equal chunks, cut from
 pages of the page allocator. SlabZone has a single zone and the choice of the chunk size,
 SlabHeap the zones, their lists and the pages.
 */
module SlabZone {
  import opened Sequences
  import opened Align

  const PageSize: nat := 4096
  const Zones: nat := 72

  /** `size` is zone_size, `hdr` the size of struct slab_zone. */
  datatype Config = Config(size: nat, hdr: nat) {
    /** zone_size is 32, 64 or 128 KB. */
    predicate Ok() { (size == 0x8000 || size == 0x1_0000 || size == 0x2_0000) && 0 < hdr <= 64 }
    function Pages(): nat { size / PageSize }
    function Limit(): nat { if size / 4 > 0x4000 then 0x4000 else size / 4 }
  }

  datatype Class = Class(index: int, chunk: nat)

  /** zoneindex: the zone index for a request, and the chunk size of that zone. */
  function ZoneIndex(n: nat): (r: Class)
    requires 0 < n < 16384
  {
    if n < 128 then var q := (n + 7) / 8; Class(q - 1, 8 * q)
    else if n < 256 then var q := (n + 15) / 16; Class(q + 7, 16 * q)
    else if n < 512 then var q := (n + 31) / 32; Class(q + 15, 32 * q)
    else if n < 1024 then var q := (n + 63) / 64; Class(q + 23, 64 * q)
    else if n < 2048 then var q := (n + 127) / 128; Class(q + 31, 128 * q)
    else if n < 4096 then var q := (n + 255) / 256; Class(q + 39, 256 * q)
    else if n < 8192 then var q := (n + 511) / 512; Class(q + 47, 512 * q)
    else var q := (n + 1023) / 1024; Class(q + 55, 1024 * q)
  }

  /** The chunk size that belongs to a zone index, independently of any request. */
  function ChunkOf(i: nat): nat {
    if i < 16 then 8 * (i + 1)
    else if i < 24 then 16 * (i - 7)
    else if i < 32 then 32 * (i - 15)
    else if i < 40 then 64 * (i - 23)
    else if i < 48 then 128 * (i - 31)
    else if i < 56 then 256 * (i - 39)
    else if i < 64 then 512 * (i - 47)
    else 1024 * (i - 55)
  }

  /**
   The chunk is large enough, wastes less than an eighth of the request or less than 8 bytes, and is that of
   its zone index.
   */
  lemma ZoneIndexFits(n: nat)
    requires 0 < n < 16384
    ensures var r := ZoneIndex(n);
      && 0 <= r.index < Zones && n <= r.chunk && r.chunk == ChunkOf(r.index)
      && (r.chunk - n < 8 || 8 * (r.chunk - n) < n)
      && (n < 8192 ==> r.chunk <= 8192) && r.chunk <= 16384
  {
    var r := ZoneIndex(n);
    if n < 1024 {
      SmallBands(n);
      assert 0 <= r.index < 40 && n <= r.chunk <= 1024;
    } else {
      LargeBands(n);
      assert 39 <= r.index < 72 && n <= r.chunk <= 16384;
    }
  }

  lemma SmallBands(n: nat)
    requires 0 < n < 1024
    ensures n < 128 ==> n <= 8 * ((n + 7) / 8) < n + 8 && 1 <= (n + 7) / 8 <= 16
    ensures 128 <= n < 256 ==> n <= 16 * ((n + 15) / 16) < n + 16 && 8 <= (n + 15) / 16 <= 16
    ensures 256 <= n < 512 ==> n <= 32 * ((n + 31) / 32) < n + 32 && 8 <= (n + 31) / 32 <= 16
    ensures 512 <= n < 1024 ==> n <= 64 * ((n + 63) / 64) < n + 64 && 8 <= (n + 63) / 64 <= 16
  {
  }

  lemma LargeBands(n: nat)
    requires 1024 <= n < 16384
    ensures 1024 <= n < 2048 ==> n <= 128 * ((n + 127) / 128) < n + 128 && 8 <= (n + 127) / 128 <= 16
    ensures 2048 <= n < 4096 ==> n <= 256 * ((n + 255) / 256) < n + 256 && 8 <= (n + 255) / 256 <= 16
    ensures 4096 <= n < 8192 ==> n <= 512 * ((n + 511) / 512) < n + 512 && 8 <= (n + 511) / 512 <= 16
    ensures 8192 <= n < 16384 ==> n <= 1024 * ((n + 1023) / 1024) < n + 1024 && 8 <= (n + 1023) / 1024 <= 16
  {
  }

  /** So equal zone indices mean equal chunk sizes, and larger indices larger chunks. */
  lemma ChunkGrows(i: nat, j: nat)
    requires i < j < Zones
    ensures ChunkOf(i) < ChunkOf(j)
  {
  }

  /** The chunk size is the least there is for the request: the chunks of every smaller index are too small. */
  lemma ZoneIndexLeast(n: nat, i: nat)
    requires 0 < n < 16384 && i < ZoneIndex(n).index
    ensures ChunkOf(i) < n
  {
    ZoneIndexFits(n);
    var k := ZoneIndex(n).index;
    StepLess(n);
    if i < k - 1 {
      ChunkGrows(i, k - 1);
    }
  }

  lemma StepLess(n: nat)
    requires 0 < n < 16384 && ZoneIndex(n).index > 0
    ensures ChunkOf(ZoneIndex(n).index - 1) < n
  {
    if n < 1024 {
      SmallBands(n);
    } else {
      LargeBands(n);
    }
  }

  /** struct slab_zone. `free` is the free chunk list, `base` the address of chunk 0. */
  datatype Zone = Zone(nfree: nat, nmax: nat, uindex: nat, size: nat, index: nat, base: nat, free: seq<nat>)

  function Chunk(z: Zone, i: nat): nat { z.base + Times(i, z.size) }

  /** The addresses of the first `k` chunks. */
  ghost function FirstChunks(z: Zone, k: nat): set<nat> {
    if k == 0 then {} else FirstChunks(z, k - 1) + {Chunk(z, k - 1)}
  }

  /** The chunks handed out so far, at least once. */
  ghost function Issued(z: Zone): set<nat> { FirstChunks(z, z.uindex + 1) }

  ghost function Elements(q: seq<nat>): set<nat> { set p | p in q }

  ghost function FreeSet(z: Zone): set<nat> { Elements(z.free) }

  /** The chunks in use. */
  ghost function Live(z: Zone): set<nat> { Issued(z) - FreeSet(z) }

  /** A zone in the `size` bytes from `start` on. */
  ghost predicate ZoneOk(c: Config, start: nat, z: Zone) {
    && z.nmax >= 3 && z.uindex < z.nmax && z.index < Zones && z.size == ChunkOf(z.index) > 0
    && z.nfree == (z.nmax - 1 - z.uindex) + |z.free|
    && NoDup(z.free) && FreeSet(z) <= Issued(z)
    && start + c.hdr <= z.base && z.base + Times(z.nmax, z.size) <= start + c.size
  }

  /** Chunks are `size` apart and inside the zone. */
  lemma {:induction false} FirstChunksAre(z: Zone, k: nat, p: nat)
    requires z.size > 0
    ensures p in FirstChunks(z, k) <==> exists i: nat :: i < k && p == Chunk(z, i)
  {
    if k > 0 {
      FirstChunksAre(z, k - 1, p);
      if p == Chunk(z, k - 1) {
        assert k - 1 < k;
      }
    }
  }

  lemma {:induction false} FirstChunksBelow(z: Zone, k: nat)
    requires z.size > 0
    ensures forall p | p in FirstChunks(z, k) :: z.base <= p && p + z.size <= z.base + Times(k, z.size)
    ensures |FirstChunks(z, k)| == k
  {
    if k > 0 {
      FirstChunksBelow(z, k - 1);
      TimesLess(k - 1, k, z.size);
      assert Chunk(z, k - 1) !in FirstChunks(z, k - 1);
    }
  }

  lemma {:induction false} NoDupCount(q: seq<nat>)
    requires NoDup(q)
    ensures |Elements(q)| == |q|
  {
    if q != [] {
      var rest := q[..|q| - 1];
      NoDupCount(rest);
      assert q[|q| - 1] !in rest;
      assert q == rest + [q[|q| - 1]];
      assert Elements(q) == Elements(rest) + {q[|q| - 1]};
    }
  }

  /** The free count is right: with it at its maximum, and only then, no chunk is in use and the zone can go. */
  lemma AllFree(c: Config, start: nat, z: Zone)
    requires ZoneOk(c, start, z)
    ensures z.nfree + |Live(z)| == z.nmax
    ensures z.nfree == z.nmax <==> Live(z) == {}
  {
    FirstChunksBelow(z, z.uindex + 1);
    NoDupCount(z.free);
    assert Issued(z) == FreeSet(z) + Live(z);
  }

  /** Where the live chunks are. */
  lemma LiveInside(c: Config, start: nat, z: Zone, p: nat)
    requires ZoneOk(c, start, z) && p in Issued(z)
    ensures start + c.hdr <= p && p + z.size <= start + c.size
  {
    FirstChunksBelow(z, z.uindex + 1);
    if z.uindex + 1 < z.nmax {
      TimesLess(z.uindex + 1, z.nmax, z.size);
    }
  }

  lemma LiveDisjoint(z: Zone, p: nat, q: nat)
    requires z.size > 0 && p in Issued(z) && q in Issued(z) && p != q
    ensures p + z.size <= q || q + z.size <= p
  {
    FirstChunksAre(z, z.uindex + 1, p);
    FirstChunksAre(z, z.uindex + 1, q);
    var i: nat :| i < z.uindex + 1 && p == Chunk(z, i);
    var j: nat :| j < z.uindex + 1 && q == Chunk(z, j);
    if i < j {
      TimesLess(i, j, z.size);
    } else if j < i {
      TimesLess(j, i, z.size);
    }
  }

  datatype Got = Got(p: nat, z: Zone)

  /** rt_malloc in a zone with a free chunk: memory never used first, then the free list. */
  function TakeChunk(z: Zone): Got
    requires z.nfree > 0 && (z.uindex + 1 == z.nmax ==> z.free != [])
  {
    if z.uindex + 1 != z.nmax then Got(Chunk(z, z.uindex + 1), z.(nfree := z.nfree - 1, uindex := z.uindex + 1))
    else Got(z.free[0], z.(nfree := z.nfree - 1, free := z.free[1..]))
  }

  /** rt_free: the chunk goes to the front of the free list. */
  function GiveChunk(z: Zone, p: nat): Zone {
    z.(nfree := z.nfree + 1, free := [p] + z.free)
  }

  lemma TakeNew(c: Config, start: nat, z: Zone)
    requires ZoneOk(c, start, z) && z.nfree > 0 && z.uindex + 1 != z.nmax
    ensures var r := TakeChunk(z); ZoneOk(c, start, r.z) && r.p !in Issued(z) && Live(r.z) == Live(z) + {r.p}
  {
    var r := TakeChunk(z);
    NextChunk(z, r.z, r.p);
    MoreIssued(z, r.z, r.p);
  }

  /** The next chunk is new, and the only one that has been issued since. */
  lemma NextChunk(z: Zone, y: Zone, p: nat)
    requires z.size > 0 && y.base == z.base && y.size == z.size && y.uindex == z.uindex + 1 && p == Chunk(z, y.uindex)
    ensures p !in Issued(z) && Issued(y) == Issued(z) + {p}
  {
    FirstChunksBelow(z, z.uindex + 1);
    SameChunks(z, y, y.uindex);
    assert Issued(y) == FirstChunks(y, y.uindex) + {Chunk(y, y.uindex)};
  }

  lemma MoreIssued(z: Zone, y: Zone, p: nat)
    requires FreeSet(z) <= Issued(z) && y.free == z.free && p !in Issued(z) && Issued(y) == Issued(z) + {p}
    ensures FreeSet(y) <= Issued(y) && Live(y) == Live(z) + {p}
  {
  }

  /** Chunk addresses depend on the base and the size only. */
  lemma {:induction false} SameChunks(z: Zone, y: Zone, k: nat)
    requires y.base == z.base && y.size == z.size
    ensures FirstChunks(y, k) == FirstChunks(z, k)
  {
    if k > 0 {
      SameChunks(z, y, k - 1);
    }
  }

  lemma TakeOld(c: Config, start: nat, z: Zone)
    requires ZoneOk(c, start, z) && z.nfree > 0 && z.uindex + 1 == z.nmax
    ensures z.free != []
    ensures var r := TakeChunk(z); ZoneOk(c, start, r.z) && r.p in FreeSet(z) && Live(r.z) == Live(z) + {r.p}
  {
    var r := TakeChunk(z);
    SameChunks(z, r.z, z.uindex + 1);
    assert z.free == [z.free[0]] + z.free[1..];
    assert FreeSet(r.z) == FreeSet(z) - {r.p};
  }

  /** The chunk handed out was not in use, and is all that changes. */
  lemma TakeOk(c: Config, start: nat, z: Zone)
    requires ZoneOk(c, start, z) && z.nfree > 0
    ensures z.uindex + 1 == z.nmax ==> z.free != []
    ensures var r := TakeChunk(z); ZoneOk(c, start, r.z) && r.p !in Live(z) && Live(r.z) == Live(z) + {r.p}
  {
    if z.uindex + 1 != z.nmax {
      TakeNew(c, start, z);
    } else {
      TakeOld(c, start, z);
    }
  }

  lemma GiveOk(c: Config, start: nat, z: Zone, p: nat)
    requires ZoneOk(c, start, z) && p in Live(z)
    ensures var r := GiveChunk(z, p); ZoneOk(c, start, r) && Live(r) == Live(z) - {p}
  {
    var r := GiveChunk(z, p);
    SameChunks(z, r, z.uindex + 1);
    assert FreeSet(r) == FreeSet(z) + {p};
    assert p !in z.free;
  }

  /** Once all chunks have been issued, the one given back last is handed out next. */
  lemma GiveTake(c: Config, start: nat, z: Zone, p: nat)
    requires ZoneOk(c, start, z) && p in Live(z) && z.uindex + 1 == z.nmax
    ensures TakeChunk(GiveChunk(z, p)) == Got(p, z)
  {
  }

  /** `n` is a power of two. */
  predicate PowerOfTwo(n: nat) {
    n == 1 || (n > 1 && n % 2 == 0 && PowerOfTwo(n / 2))
  }

  /** Where the chunks of a new zone begin: aligned to their own size if that is a power of two. */
  function Offset(c: Config, size: nat): (off: nat)
    requires c.Ok() && size > 0
    ensures c.hdr <= off && (PowerOfTwo(size) ==> off % size == 0)
    ensures off <= size + 64 || off <= 72
  {
    if PowerOfTwo(size) then Up(c.hdr, size) else Up(c.hdr, 8)
  }

  /** A new zone at `start`, its first chunk handed out. */
  function NewZone(c: Config, start: nat, index: nat, size: nat): Zone
    requires c.Ok() && size > 0 && Offset(c, size) <= c.size
  {
    var off := Offset(c, size);
    var nmax := Quotient(c.size - off, size);
    Zone(if nmax > 0 then nmax - 1 else 0, nmax, 0, size, index, start + off, [])
  }

  lemma NewZoneOk(c: Config, start: nat, n: nat)
    requires c.Ok() && 0 < n < c.Limit()
    ensures var r := ZoneIndex(n);
      && r.index >= 0 && r.chunk > 0 && Offset(c, r.chunk) <= c.size
      && var z := NewZone(c, start, r.index, r.chunk);
        && ZoneOk(c, start, z) && Live(z) == {z.base} && z.nfree > 0 && Chunk(z, 0) == z.base
        // There is no room for another chunk.
        && start + c.size < Chunk(z, z.nmax) + z.size
  {
    ZoneIndexFits(n);
    var r := ZoneIndex(n);
    OffsetSmall(c, r.chunk);
    ThreeChunks(c.size - Offset(c, r.chunk), r.chunk);
    OneIssued(NewZone(c, start, r.index, r.chunk));
  }

  lemma OneIssued(z: Zone)
    requires z.uindex == 0 && z.free == []
    ensures Chunk(z, 0) == z.base && Issued(z) == Live(z) == {z.base} && FreeSet(z) == {}
  {
    assert FirstChunks(z, 1) == FirstChunks(z, 0) + {Chunk(z, 0)};
  }

  lemma ThreeChunks(room: nat, size: nat)
    requires size > 0 && 3 * size <= room
    ensures Quotient(room, size) >= 3
  {
    assert Times(1, size) == Times(0, size) + size;
    assert Times(2, size) == Times(1, size) + size;
    assert Times(3, size) == Times(2, size) + size;
    QuotientAtLeast(room, size, 3);
  }

  lemma OffsetSmall(c: Config, size: nat)
    requires c.Ok() && size > 0 && 4 * size <= c.size
    ensures 3 * size + Offset(c, size) <= c.size
  {
    if size >= c.hdr && PowerOfTwo(size) {
      assert Up(c.hdr, size) == size;
    }
  }
}

/** The zones, the lists they are in, and the pages they are made of. Zones are named by their first page. */
module SlabHeap {
  import opened Sequences
  import opened Align
  import opened SlabZone
  import PageRuns

  /** What a page is used for. This is not in the kernel, but its invariant. */
  datatype Owner = FreePage | ZonePage(z: nat) | LargePage(a: nat)

  /** struct memusage. */
  datatype Usage = Unused | Small(off: nat) | Large(n: nat)

  datatype Heap = Heap(
    zones: map<nat, Zone>,
    lists: seq<seq<nat>>,             // zone_array
    spare: seq<nat>,                  // zone_free
    pages: seq<PageRuns.Run>,         // the free pages
    usage: map<nat, Usage>,           // memusage
    large: map<nat, nat>,             // allocations of whole pages: first page and count
    owner: map<nat, Owner>)

  /** The `n` pages from `a` on belong to `o`. */
  ghost predicate Owns(owner: map<nat, Owner>, a: nat, n: nat, o: Owner) {
    forall p | a <= p < a + n :: p in owner && owner[p] == o
  }

  ghost predicate Marked(usage: map<nat, Usage>, a: nat, n: nat) {
    forall p | a <= p < a + n :: p in usage && usage[p] == Small(p - a)
  }

  /**
   A zone is in the list of its index exactly if it has a free chunk and is not spare; a spare zone has none in
   use.
   */
  ghost predicate ZoneGood(c: Config, h: Heap, a: nat)
    requires a in h.zones && |h.lists| == Zones
  {
    var z := h.zones[a];
    && ZoneOk(c, a * PageSize, z)
    && Owns(h.owner, a, c.Pages(), ZonePage(a)) && Marked(h.usage, a, c.Pages())
    && (a in h.lists[z.index] <==> z.nfree > 0 && a !in h.spare)
    && (a in h.spare ==> Live(z) == {})
  }

  ghost predicate ListGood(h: Heap, i: nat)
    requires i < |h.lists|
  {
    NoDup(h.lists[i]) && forall a | a in h.lists[i] :: a in h.zones && h.zones[a].index == i
  }

  /** The owner of a page knows about it. */
  ghost predicate PageGood(c: Config, h: Heap, p: nat)
    requires p in h.owner
  {
    match h.owner[p]
    case FreePage => p in PageRuns.Pages(h.pages)
    case ZonePage(a) => a in h.zones && a <= p < a + c.Pages()
    case LargePage(a) => a in h.large && a <= p < a + h.large[a]
  }

  ghost predicate LargeGood(h: Heap, a: nat)
    requires a in h.large
  {
    h.large[a] > 0 && Owns(h.owner, a, h.large[a], LargePage(a)) && a in h.usage && h.usage[a] == Large(h.large[a])
  }

  ghost predicate FreeGood(h: Heap) {
    PageRuns.Canonical(h.pages) && forall p | p in PageRuns.Pages(h.pages) :: p in h.owner && h.owner[p] == FreePage
  }

  ghost predicate SpareGood(h: Heap) {
    NoDup(h.spare) && |h.spare| <= 2 && forall a | a in h.spare :: a in h.zones
  }

  ghost predicate Inv(c: Config, h: Heap) {
    && c.Ok() && |h.lists| == Zones && FreeGood(h) && SpareGood(h)
    && (forall a {:trigger ZoneGood(c, h, a)} | a in h.zones :: ZoneGood(c, h, a))
    && (forall i {:trigger ListGood(h, i)} | 0 <= i < Zones :: ListGood(h, i))
    && (forall p {:trigger PageGood(c, h, p)} | p in h.owner :: PageGood(c, h, p))
    && (forall a {:trigger LargeGood(h, a)} | a in h.large :: LargeGood(h, a))
  }

  /** The pages are conserved: each belongs to the free list, to one zone or to one large allocation. */
  lemma PagesPartitioned(c: Config, h: Heap, p: nat)
    requires Inv(c, h) && p in h.owner
    ensures p in PageRuns.Pages(h.pages) <==> h.owner[p] == FreePage
    ensures forall a: nat :: a in h.zones && a <= p < a + c.Pages() <==> h.owner[p] == ZonePage(a)
    ensures forall a: nat :: a in h.large && a <= p < a + h.large[a] <==> h.owner[p] == LargePage(a)
  {
    assert PageGood(c, h, p);
    forall a | a in h.zones && a <= p < a + c.Pages() ensures h.owner[p] == ZonePage(a) {
      assert ZoneGood(c, h, a);
    }
    forall a | a in h.large && a <= p < a + h.large[a] ensures h.owner[p] == LargePage(a) {
      assert LargeGood(h, a);
    }
  }

  /** Chunk `p` of zone `a` is in use. */
  ghost predicate InUse(h: Heap, a: nat, p: nat) {
    a in h.zones && p in Live(h.zones[a])
  }

  /** Chunks in use never overlap, whatever zones they are in, and lie in their zone behind its header. */
  lemma ChunksDisjoint(c: Config, h: Heap, a: nat, p: nat, b: nat, q: nat)
    requires Inv(c, h) && InUse(h, a, p) && InUse(h, b, q) && (a != b || p != q)
    ensures a * PageSize + c.hdr <= p && p + h.zones[a].size <= a * PageSize + c.size
    ensures p + h.zones[a].size <= q || q + h.zones[b].size <= p
  {
    assert ZoneGood(c, h, a) && ZoneGood(c, h, b);
    LiveInside(c, a * PageSize, h.zones[a], p);
    LiveInside(c, b * PageSize, h.zones[b], q);
    if a == b {
      LiveDisjoint(h.zones[a], p, q);
    } else {
      ZonesApart(c, h, a, b);
    }
  }

  lemma ZonesApart(c: Config, h: Heap, a: nat, b: nat)
    requires Inv(c, h) && a in h.zones && b in h.zones && a != b
    ensures a + c.Pages() <= b || b + c.Pages() <= a
  {
    assert ZoneGood(c, h, a) && ZoneGood(c, h, b);
    assert a in h.owner && h.owner[a] == ZonePage(a) && b in h.owner && h.owner[b] == ZonePage(b);
  }

  datatype Result = Result(addr: Option<nat>, heap: Heap)

  /** rt_malloc from the first zone of a list. */
  function FromZone(h: Heap, i: nat): Result
    requires i < |h.lists| && h.lists[i] != [] && h.lists[i][0] in h.zones
    requires var z := h.zones[h.lists[i][0]]; z.nfree > 0 && (z.uindex + 1 == z.nmax ==> z.free != [])
  {
    var a := h.lists[i][0];
    var g := TakeChunk(h.zones[a]);
    Result(Some(g.p), h.(zones := h.zones[a := g.z],
                         lists := if g.z.nfree == 0 then h.lists[i := h.lists[i][1..]] else h.lists))
  }

  /** A zone changed in place keeps everything that does not concern it. */
  lemma ZoneUpdated(c: Config, h: Heap, r: Heap, a: nat)
    requires Inv(c, h) && a in h.zones && |r.lists| == Zones
    requires r == h.(zones := r.zones, lists := r.lists) && a in r.zones && r.zones == h.zones[a := r.zones[a]]
      && r.zones[a].index == h.zones[a].index
    requires ZoneGood(c, r, a)
    requires forall i | 0 <= i < Zones :: NoDup(r.lists[i]) && forall b | b != a :: b in r.lists[i] <==> b in h.lists[i]
    requires forall i | 0 <= i < Zones && i != h.zones[a].index :: a !in r.lists[i]
    ensures Inv(c, r)
  {
    forall b | b in r.zones ensures ZoneGood(c, r, b) {
      if b != a {
        assert ZoneGood(c, h, b);
      }
    }
    forall i | 0 <= i < Zones ensures ListGood(r, i) {
      assert ListGood(h, i);
    }
    forall p | p in r.owner ensures PageGood(c, r, p) {
      assert PageGood(c, h, p);
    }
    forall b | b in r.large ensures LargeGood(r, b) {
      assert LargeGood(h, b);
    }
  }

  /** What is handed out was not in use; nothing else changes. */
  ghost predicate OneMore(h: Heap, r: Heap, a: nat, p: nat) {
    && !InUse(h, a, p) && InUse(r, a, p) && r.large == h.large
    && forall b, q | b != a || q != p :: InUse(r, b, q) <==> InUse(h, b, q)
  }

  /** A chunk of at least `n` bytes of zone `a`. */
  ghost predicate Holds(h: Heap, a: nat, p: nat, n: nat) {
    InUse(h, a, p) && n <= h.zones[a].size
  }

  ghost predicate OneLess(h: Heap, r: Heap, a: nat, p: nat) {
    && InUse(h, a, p) && !InUse(r, a, p) && r.large == h.large
    && forall b, q | b != a || q != p :: InUse(r, b, q) <==> InUse(h, b, q)
  }

  /** The zone at the head of a list. */
  lemma HeadZone(c: Config, h: Heap, i: nat)
    requires Inv(c, h) && i < Zones && h.lists[i] != []
    ensures var a := h.lists[i][0];
      && a in h.zones && h.zones[a].index == i && ZoneGood(c, h, a) && h.zones[a].nfree > 0
      && h.zones[a].size == ChunkOf(i)
    ensures var z := h.zones[h.lists[i][0]]; z.uindex + 1 == z.nmax ==> z.free != []
    ensures NoDup(h.lists[i])
  {
    var a := h.lists[i][0];
    assert ListGood(h, i);
    assert a in h.lists[i];
    assert ZoneGood(c, h, a);
  }

  lemma FromZoneInv(c: Config, h: Heap, i: nat)
    requires Inv(c, h) && i < Zones && h.lists[i] != []
    ensures h.lists[i][0] in h.zones && h.zones[h.lists[i][0]].nfree > 0
    ensures var z := h.zones[h.lists[i][0]]; z.uindex + 1 == z.nmax ==> z.free != []
    ensures var r, a := FromZone(h, i), h.lists[i][0];
      && Inv(c, r.heap) && r.addr.Some? && OneMore(h, r.heap, a, r.addr.value)
        && Holds(r.heap, a, r.addr.value, ChunkOf(i))
  {
    HeadZone(c, h, i);
    var a := h.lists[i][0];
    TakeOk(c, a * PageSize, h.zones[a]);
    TailDistinct(h.lists[i]);
    var r := FromZone(h, i).heap;
    forall j | 0 <= j < Zones
      ensures NoDup(r.lists[j]) && (forall b | b != a :: b in r.lists[j] <==> b in h.lists[j])
      ensures j != i ==> a !in r.lists[j]
    {
      assert ListGood(h, j);
    }
    ZoneUpdated(c, h, r, a);
  }

  /** A new zone in the pages from `a` on, put at the head of list `i`; its first chunk is handed out. */
  function Install(c: Config, h: Heap, a: nat, i: nat, size: nat): Result
    requires c.Ok() && size > 0 && Offset(c, size) <= c.size && i < |h.lists|
  {
    var z := NewZone(c, a * PageSize, i, size);
    Result(Some(z.base), h.(zones := h.zones[a := z], lists := h.lists[i := [a] + h.lists[i]]))
  }

  ghost predicate Unlisted(h: Heap, a: nat) {
    forall i {:trigger h.lists[i]} | 0 <= i < |h.lists| :: a !in h.lists[i]
  }

  /** After putting zone `a`, which was in no list, in front of list `i`. */
  lemma InstalledInv(c: Config, h: Heap, r: Heap, a: nat, i: nat)
    requires |h.lists| == |r.lists| == Zones && i < Zones && Unlisted(h, a)
    requires a in r.zones && r.zones == h.zones[a := r.zones[a]] && r.zones[a].index == i
    requires r.lists == h.lists[i := [a] + h.lists[i]] && a !in r.spare
      && (forall b | b != a :: b in r.spare <==> b in h.spare)
    requires c.Ok() && FreeGood(r) && SpareGood(r) && ZoneOk(c, a * PageSize, r.zones[a]) && r.zones[a].nfree > 0
    requires Owns(r.owner, a, c.Pages(), ZonePage(a)) && Marked(r.usage, a, c.Pages())
    requires forall b {:trigger ZoneGood(c, h, b)} | b in h.zones && b != a ::
      ZoneGood(c, h, b) && Owns(r.owner, b, c.Pages(), ZonePage(b)) && Marked(r.usage, b, c.Pages())
    requires forall j {:trigger ListGood(h, j)} | 0 <= j < Zones :: ListGood(h, j)
    requires forall p {:trigger PageGood(c, r, p)} | p in r.owner :: PageGood(c, r, p)
    requires forall b {:trigger LargeGood(r, b)} | b in r.large :: LargeGood(r, b)
    ensures Inv(c, r)
  {
    forall b | b in r.zones ensures ZoneGood(c, r, b) {
      if b != a {
        assert ZoneGood(c, h, b);
      }
    }
    forall j | 0 <= j < Zones ensures ListGood(r, j) {
      assert ListGood(h, j);
      assert a !in h.lists[j];
    }
  }

  lemma SpareUnlisted(c: Config, h: Heap, a: nat)
    requires Inv(c, h) && a in h.spare
    ensures a in h.zones && Unlisted(h, a) && Live(h.zones[a]) == {} && ZoneGood(c, h, a)
  {
    assert ZoneGood(c, h, a);
    forall i | 0 <= i < |h.lists| ensures a !in h.lists[i] {
      assert ListGood(h, i);
    }
  }

  /** rt_malloc that takes a zone off the free zone list. */
  function FromSpare(c: Config, h: Heap, i: nat, size: nat): Result
    requires c.Ok() && size > 0 && Offset(c, size) <= c.size && i < |h.lists| && h.spare != []
  {
    Install(c, h.(spare := h.spare[1..]), h.spare[0], i, size)
  }

  lemma FromSpareInv(c: Config, h: Heap, n: nat)
    requires Inv(c, h) && h.spare != [] && 0 < n < c.Limit()
    ensures var k := ZoneIndex(n); 0 <= k.index < Zones && k.chunk > 0 && Offset(c, k.chunk) <= c.size
    ensures var k := ZoneIndex(n);
      var r := FromSpare(c, h, k.index, k.chunk);
      && Inv(c, r.heap) && r.addr.Some? && OneMore(h, r.heap, h.spare[0], r.addr.value)
      && Holds(r.heap, h.spare[0], r.addr.value, n)
  {
    var a := h.spare[0];
    var k := ZoneIndex(n);
    ZoneIndexFits(n);
    NewZoneOk(c, a * PageSize, n);
    SpareUnlisted(c, h, a);
    TailDistinct(h.spare);
    var r := FromSpare(c, h, k.index, k.chunk).heap;
    SpareUsed(c, h, r, a, k.index);
  }

  /** A heap in which the first spare zone `a` is in list `i` again. */
  lemma SpareUsed(c: Config, h: Heap, r: Heap, a: nat, i: nat)
    requires Inv(c, h) && h.spare != [] && a == h.spare[0] && i < Zones && Unlisted(h, a) && a in h.zones
    requires a in r.zones && r == h.(zones := h.zones[a := r.zones[a]], spare := h.spare[1..],
                                     lists := h.lists[i := [a] + h.lists[i]])
    requires ZoneOk(c, a * PageSize, r.zones[a]) && r.zones[a].nfree > 0 && r.zones[a].index == i && ZoneGood(c, h, a)
    ensures Inv(c, r)
  {
    TailDistinct(h.spare);
    forall b | b in h.zones && b != a
      ensures ZoneGood(c, h, b) && Owns(r.owner, b, c.Pages(), ZonePage(b)) && Marked(r.usage, b, c.Pages())
    {
      assert ZoneGood(c, h, b);
    }
    forall p | p in r.owner ensures PageGood(c, r, p) {
      assert PageGood(c, h, p);
    }
    forall b | b in r.large ensures LargeGood(r, b) {
      assert LargeGood(h, b);
    }
    InstalledInv(c, h, r, a, i);
  }

  /** The `n` pages from `a` on change hands. */
  ghost function Claim(owner: map<nat, Owner>, a: nat, n: nat, o: Owner): map<nat, Owner> {
    map p | p in owner :: if a <= p < a + n then o else owner[p]
  }

  /** The loop over the pages of a zone that fills in memusage. */
  function Mark(usage: map<nat, Usage>, a: nat, n: nat): map<nat, Usage> {
    if n == 0 then usage else Mark(usage, a, n - 1)[a + n - 1 := Small(n - 1)]
  }

  function Unmark(usage: map<nat, Usage>, a: nat, n: nat): map<nat, Usage> {
    if n == 0 then usage else Unmark(usage, a, n - 1)[a + n - 1 := Unused]
  }

  lemma {:induction false} MarkIs(usage: map<nat, Usage>, a: nat, n: nat)
    ensures Marked(Mark(usage, a, n), a, n)
    ensures forall p | p in usage && p !in PageRuns.Range(a, n) ::
      p in Mark(usage, a, n) && Mark(usage, a, n)[p] == usage[p]
  {
    if n > 0 {
      MarkIs(usage, a, n - 1);
      assert PageRuns.Range(a, n) == PageRuns.Range(a, n - 1) + {a + n - 1};
    }
  }

  lemma {:induction false} UnmarkIs(usage: map<nat, Usage>, a: nat, n: nat)
    ensures forall p | p in usage && p !in PageRuns.Range(a, n) ::
      p in Unmark(usage, a, n) && Unmark(usage, a, n)[p] == usage[p]
  {
    if n > 0 {
      UnmarkIs(usage, a, n - 1);
      assert PageRuns.Range(a, n) == PageRuns.Range(a, n - 1) + {a + n - 1};
    }
  }

  /** rt_malloc that gets the pages for a new zone from the page allocator. */
  ghost function FromPages(c: Config, h: Heap, i: nat, size: nat): Result
    requires c.Ok() && size > 0 && Offset(c, size) <= c.size && i < |h.lists|
  {
    var t := PageRuns.Alloc(h.pages, c.Pages());
    if t.addr.None? then Result(None, h)
    else
      var a := t.addr.value;
      Install(c, h.(pages := t.list, owner := Claim(h.owner, a, c.Pages(), ZonePage(a)),
                    usage := Mark(h.usage, a, c.Pages())), a, i, size)
  }

  /** Pages with an owner are not free, so taking free pages leaves them alone. */
  lemma OwnersKept(c: Config, h: Heap, a: nat, n: nat, o: Owner, b: nat, k: nat, x: Owner)
    requires Inv(c, h) && PageRuns.Range(a, n) <= PageRuns.Pages(h.pages) && Owns(h.owner, b, k, x) && x != FreePage
    ensures Owns(Claim(h.owner, a, n, o), b, k, x)
    ensures PageRuns.Range(b, k) !! PageRuns.Range(a, n)
  {
    forall p | p in PageRuns.Range(b, k) ensures p !in PageRuns.Range(a, n) {
      assert p in h.owner && h.owner[p] == x;
    }
    forall p | b <= p < b + k ensures p in h.owner && !(a <= p < a + n) {
      assert p in PageRuns.Range(b, k) && (a <= p < a + n ==> p in PageRuns.Range(a, n));
    }
  }

  /** After claiming free pages for `o`, the free list and the pages of all others are as they should be. */
  lemma ClaimedPages(c: Config, h: Heap, a: nat, n: nat, o: Owner)
    requires Inv(c, h) && n > 0 && PageRuns.Alloc(h.pages, n).addr == Some(a) && o != FreePage
    ensures PageRuns.Range(a, n) <= PageRuns.Pages(h.pages)
    ensures Owns(Claim(h.owner, a, n, o), a, n, o)
    ensures FreeGood(h.(pages := PageRuns.Alloc(h.pages, n).list, owner := Claim(h.owner, a, n, o)))
    ensures forall p | p in h.owner && h.owner[p] == FreePage && !(a <= p < a + n) ::
      p in PageRuns.Pages(PageRuns.Alloc(h.pages, n).list)
  {
    PageRuns.AllocPages(h.pages, n);
    var owner := Claim(h.owner, a, n, o);
    forall p | a <= p < a + n ensures p in owner && owner[p] == o {
      assert p in PageRuns.Range(a, n);
    }
    forall p | p in PageRuns.Pages(PageRuns.Alloc(h.pages, n).list) ensures p in owner && owner[p] == FreePage {
      assert p !in PageRuns.Range(a, n);
    }
    forall p | p in h.owner && h.owner[p] == FreePage && !(a <= p < a + n)
      ensures p in PageRuns.Pages(PageRuns.Alloc(h.pages, n).list)
    {
      assert PageGood(c, h, p);
      assert p !in PageRuns.Range(a, n);
    }
  }

  lemma FromPagesInv(c: Config, h: Heap, n: nat)
    requires Inv(c, h) && 0 < n < c.Limit()
    ensures var k := ZoneIndex(n); 0 <= k.index < Zones && k.chunk > 0 && Offset(c, k.chunk) <= c.size
    ensures var k := ZoneIndex(n);
      var r, t := FromPages(c, h, k.index, k.chunk), PageRuns.Alloc(h.pages, c.Pages());
      && Inv(c, r.heap) && (r.addr.None? <==> t.addr.None?) && (r.addr.None? ==> r.heap == h)
      && (r.addr.Some? ==>
            OneMore(h, r.heap, t.addr.value, r.addr.value) && Holds(r.heap, t.addr.value, r.addr.value, n))
  {
    ZoneIndexFits(n);
    NewZoneOk(c, 0, n);
    var t := PageRuns.Alloc(h.pages, c.Pages());
    if t.addr.Some? {
      NewZoneAdded(c, h, n, t.addr.value);
    }
  }

  lemma NewZoneAdded(c: Config, h: Heap, n: nat, a: nat)
    requires Inv(c, h) && 0 < n < c.Limit() && PageRuns.Alloc(h.pages, c.Pages()).addr == Some(a)
    ensures var k := ZoneIndex(n); 0 <= k.index < Zones && k.chunk > 0 && Offset(c, k.chunk) <= c.size
    ensures var k := ZoneIndex(n);
      var r := FromPages(c, h, k.index, k.chunk);
      Inv(c, r.heap) && r.addr.Some? && OneMore(h, r.heap, a, r.addr.value) && Holds(r.heap, a, r.addr.value, n)
  {
    ZoneIndexFits(n);
    NewZoneOk(c, a * PageSize, n);
    var k := ZoneIndex(n);
    var r := FromPages(c, h, k.index, k.chunk).heap;
    ClaimedPages(c, h, a, c.Pages(), ZonePage(a));
    MarkIs(h.usage, a, c.Pages());
    NotAZone(c, h, a, c.Pages());
    NewZoneInv(c, h, r, a, k.index);
  }

  /** A heap with a new zone in the pages from `a` on. */
  lemma NewZoneInv(c: Config, h: Heap, r: Heap, a: nat, i: nat)
    requires Inv(c, h) && i < Zones && a !in h.zones && a !in h.spare && Unlisted(h, a)
    requires Claimed(c, h, r, a, c.Pages(), ZonePage(a)) && r.zones == h.zones[a := r.zones[a]] && r.zones[a].index == i
    requires r.lists == h.lists[i := [a] + h.lists[i]] && r.spare == h.spare && FreeGood(r)
    requires ZoneOk(c, a * PageSize, r.zones[a]) && r.zones[a].nfree > 0
    requires Owns(r.owner, a, c.Pages(), ZonePage(a)) && Marked(r.usage, a, c.Pages())
    ensures Inv(c, r)
  {
    forall b | b in h.zones && b != a
      ensures ZoneGood(c, h, b) && Owns(r.owner, b, c.Pages(), ZonePage(b)) && Marked(r.usage, b, c.Pages())
    {
      ClaimedZones(c, h, r, a, c.Pages(), ZonePage(a), b);
    }
    ClaimedOwners(c, h, r, a, c.Pages(), ZonePage(a));
    ClaimedLarge(c, h, r, a, c.Pages(), ZonePage(a));
    InstalledInv(c, h, r, a, i);
  }

  lemma ZoneStart(c: Config, h: Heap, a: nat)
    requires Inv(c, h) && a in h.zones
    ensures a in h.owner && h.owner[a] == ZonePage(a)
  {
    assert ZoneGood(c, h, a);
  }

  lemma LargeStart(c: Config, h: Heap, a: nat)
    requires Inv(c, h) && a in h.large
    ensures a in h.owner && h.owner[a] == LargePage(a)
  {
    assert LargeGood(h, a);
  }

  lemma NotAZone(c: Config, h: Heap, a: nat, n: nat)
    requires Inv(c, h) && n > 0 && PageRuns.Range(a, n) <= PageRuns.Pages(h.pages)
    ensures a !in h.zones && a !in h.large && a !in h.spare && Unlisted(h, a)
  {
    assert a in PageRuns.Range(a, n);
    if a in h.zones {
      ZoneStart(c, h, a);
    }
    if a in h.large {
      LargeStart(c, h, a);
    }
    forall i | 0 <= i < |h.lists| ensures a !in h.lists[i] {
      assert ListGood(h, i);
    }
  }

  /** `r` is `h` after free pages from `a` on went to `o`. */
  ghost predicate Claimed(c: Config, h: Heap, r: Heap, a: nat, n: nat, o: Owner) {
    && n > 0 && PageRuns.Alloc(h.pages, n).addr == Some(a)
    && r.owner == Claim(h.owner, a, n, o) && r.pages == PageRuns.Alloc(h.pages, n).list
    && (forall b | b in h.zones :: b in r.zones)
    && (forall p | p in h.usage && p !in PageRuns.Range(a, n) :: p in r.usage && r.usage[p] == h.usage[p])
    && match o
       case ZonePage(z) => z == a && a in r.zones && n == c.Pages() && r.large == h.large
       case LargePage(b) => b == a && r.large == h.large[a := n] && a in r.usage && r.usage[a] == Large(n)
       case FreePage => false
  }

  lemma ClaimedOwners(c: Config, h: Heap, r: Heap, a: nat, n: nat, o: Owner)
    requires Inv(c, h) && Claimed(c, h, r, a, n, o)
    ensures forall p {:trigger PageGood(c, r, p)} | p in r.owner :: PageGood(c, r, p)
  {
    ClaimedPages(c, h, a, n, o);
    NotAZone(c, h, a, n);
    forall p | p in r.owner ensures PageGood(c, r, p) {
      assert PageGood(c, h, p);
    }
  }

  lemma ClaimedLarge(c: Config, h: Heap, r: Heap, a: nat, n: nat, o: Owner)
    requires Inv(c, h) && Claimed(c, h, r, a, n, o)
    ensures forall b {:trigger LargeGood(r, b)} | b in r.large :: LargeGood(r, b)
  {
    ClaimedPages(c, h, a, n, o);
    forall b | b in r.large ensures LargeGood(r, b) {
      if LargePage(b) != o {
        assert LargeGood(h, b);
        OwnersKept(c, h, a, n, o, b, h.large[b], LargePage(b));
        assert b in PageRuns.Range(b, h.large[b]);
      }
    }
  }

  lemma ClaimedZones(c: Config, h: Heap, r: Heap, a: nat, n: nat, o: Owner, b: nat)
    requires Inv(c, h) && Claimed(c, h, r, a, n, o) && b in h.zones
    ensures ZoneGood(c, h, b) && Owns(r.owner, b, c.Pages(), ZonePage(b)) && Marked(r.usage, b, c.Pages())
  {
    assert ZoneGood(c, h, b);
    ClaimedPages(c, h, a, n, o);
    OwnersKept(c, h, a, n, o, b, c.Pages(), ZonePage(b));
    forall p | b <= p < b + c.Pages() ensures p in r.usage && r.usage[p] == Small(p - b) {
      assert p in PageRuns.Range(b, c.Pages());
    }
  }

  /** rt_malloc of whole pages. */
  ghost function LargeAlloc(h: Heap, n: nat): Result {
    var t := PageRuns.Alloc(h.pages, n);
    if t.addr.None? then Result(None, h)
    else
      var a := t.addr.value;
      Result(Some(a * PageSize), h.(pages := t.list, owner := Claim(h.owner, a, n, LargePage(a)),
          usage := h.usage[a := Large(n)], large := h.large[a := n]))
  }

  lemma LargeAllocInv(c: Config, h: Heap, n: nat)
    requires Inv(c, h) && n > 0
    ensures var r, t := LargeAlloc(h, n), PageRuns.Alloc(h.pages, n);
      && Inv(c, r.heap) && r.heap.zones == h.zones && (r.addr.None? <==> t.addr.None?) && (r.addr.None? ==> r.heap == h)
      && (r.addr.Some? ==> t.addr.value !in h.large && r.heap.large == h.large[t.addr.value := n])
  {
    var t := PageRuns.Alloc(h.pages, n);
    if t.addr.Some? {
      var a, r := t.addr.value, LargeAlloc(h, n).heap;
      ClaimedPages(c, h, a, n, LargePage(a));
      NotAZone(c, h, a, n);
      assert a in PageRuns.Range(a, n);
      assert Claimed(c, h, r, a, n, LargePage(a));
      ClaimedOwners(c, h, r, a, n, LargePage(a));
      ClaimedLarge(c, h, r, a, n, LargePage(a));
      forall b | b in r.zones ensures ZoneGood(c, r, b) {
        ClaimedZones(c, h, r, a, n, LargePage(a), b);
      }
      forall i | 0 <= i < Zones ensures ListGood(r, i) {
        assert ListGood(h, i);
      }
    }
  }

  /** The pages from `a` on, which belonged to `o`, are free again. */
  lemma ReturnedPages(c: Config, h: Heap, a: nat, n: nat, o: Owner)
    requires Inv(c, h) && n > 0 && Owns(h.owner, a, n, o) && o != FreePage
    ensures PageRuns.Range(a, n) !! PageRuns.Pages(h.pages)
    ensures FreeGood(h.(pages := PageRuns.Free(h.pages, a, n), owner := Claim(h.owner, a, n, FreePage)))
    ensures PageRuns.Pages(PageRuns.Free(h.pages, a, n)) == PageRuns.Pages(h.pages) + PageRuns.Range(a, n)
  {
    forall p | p in PageRuns.Range(a, n) ensures p !in PageRuns.Pages(h.pages) {
      assert h.owner[p] == o;
    }
    PageRuns.FreePages(h.pages, a, n);
    var owner := Claim(h.owner, a, n, FreePage);
    forall p | p in PageRuns.Pages(h.pages) + PageRuns.Range(a, n) ensures p in owner && owner[p] == FreePage {
      if p in PageRuns.Range(a, n) {
        assert p in h.owner && a <= p < a + n;
      }
    }
  }

  /** `r` is `h` after the pages of `o` were given back. */
  ghost predicate Returned(c: Config, h: Heap, r: Heap, a: nat, n: nat, o: Owner) {
    && n > 0 && Owns(h.owner, a, n, o)
    && r.owner == Claim(h.owner, a, n, FreePage) && r.pages == PageRuns.Free(h.pages, a, n)
    && (forall p | p in h.usage && p !in PageRuns.Range(a, n) :: p in r.usage && r.usage[p] == h.usage[p])
    && match o
       case ZonePage(z) => z == a && n == c.Pages() && (forall b | b in h.zones && b != a :: b in r.zones)
           && r.large == h.large
       case LargePage(b) => b == a && a in h.large && n == h.large[a] && r.large == h.large - {a} && r.zones == h.zones
       case FreePage => false
  }

  lemma ReturnedOwners(c: Config, h: Heap, r: Heap, a: nat, n: nat, o: Owner)
    requires Inv(c, h) && Returned(c, h, r, a, n, o)
    ensures FreeGood(r)
    ensures forall p {:trigger PageGood(c, r, p)} | p in r.owner :: PageGood(c, r, p)
  {
    ReturnedPages(c, h, a, n, o);
    forall p | p in r.owner ensures PageGood(c, r, p) {
      assert PageGood(c, h, p);
      assert p in PageRuns.Range(a, n) <==> a <= p < a + n;
    }
  }

  /** Different owners have different pages. */
  lemma OwnersApart(owner: map<nat, Owner>, a: nat, n: nat, o: Owner, b: nat, k: nat, x: Owner)
    requires Owns(owner, a, n, o) && Owns(owner, b, k, x) && o != x
    ensures PageRuns.Range(b, k) !! PageRuns.Range(a, n) && Owns(Claim(owner, a, n, FreePage), b, k, x)
  {
    forall p | p in PageRuns.Range(b, k) ensures p !in PageRuns.Range(a, n) {
      assert p in owner && owner[p] == x && (p in PageRuns.Range(a, n) ==> x == o);
    }
    var owner' := Claim(owner, a, n, FreePage);
    forall p | b <= p < b + k ensures p in owner' && owner'[p] == x {
      assert p in owner && owner[p] == x && (a <= p < a + n ==> x == o);
    }
  }

  lemma ReturnedLarge(c: Config, h: Heap, r: Heap, a: nat, n: nat, o: Owner)
    requires Inv(c, h) && Returned(c, h, r, a, n, o)
    ensures forall b {:trigger LargeGood(r, b)} | b in r.large :: LargeGood(r, b)
  {
    forall b | b in r.large ensures LargeGood(r, b) {
      assert LargeGood(h, b);
      OwnersApart(h.owner, a, n, o, b, h.large[b], LargePage(b));
      assert b in PageRuns.Range(b, h.large[b]);
    }
  }

  lemma ReturnedZones(c: Config, h: Heap, r: Heap, a: nat, n: nat, o: Owner, b: nat)
    requires Inv(c, h) && Returned(c, h, r, a, n, o) && b in h.zones && o != ZonePage(b)
    ensures ZoneGood(c, h, b) && Owns(r.owner, b, c.Pages(), ZonePage(b)) && Marked(r.usage, b, c.Pages())
  {
    assert ZoneGood(c, h, b);
    OwnersApart(h.owner, a, n, o, b, c.Pages(), ZonePage(b));
    forall p | b <= p < b + c.Pages() ensures p in r.usage && r.usage[p] == Small(p - b) {
      assert p in PageRuns.Range(b, c.Pages());
    }
  }

  /** rt_free of whole pages. */
  ghost function LargeFree(h: Heap, a: nat): Heap
    requires a in h.large
  {
    var n := h.large[a];
    h.(pages := PageRuns.Free(h.pages, a, n), owner := Claim(h.owner, a, n, FreePage),
        usage := h.usage[a := Large(0)], large := h.large - {a})
  }

  lemma LargeFreeInv(c: Config, h: Heap, a: nat)
    requires Inv(c, h) && a in h.large
    ensures var r := LargeFree(h, a);
      && Inv(c, r) && r.large == h.large - {a} && r.owner.Keys == h.owner.Keys
      && r.zones == h.zones && r.lists == h.lists && r.spare == h.spare
      && PageRuns.Pages(r.pages) == PageRuns.Pages(h.pages) + PageRuns.Range(a, h.large[a])
  {
    var r, n := LargeFree(h, a), h.large[a];
    assert LargeGood(h, a);
    assert a in PageRuns.Range(a, n);
    assert Returned(c, h, r, a, n, LargePage(a));
    ReturnedPages(c, h, a, n, LargePage(a));
    ReturnedOwners(c, h, r, a, n, LargePage(a));
    ReturnedLarge(c, h, r, a, n, LargePage(a));
    forall b | b in r.zones ensures ZoneGood(c, r, b) {
      ReturnedZones(c, h, r, a, n, LargePage(a), b);
    }
    forall i | 0 <= i < Zones ensures ListGood(r, i) {
      assert ListGood(h, i);
    }
  }

  /** The chunk goes back to its zone, and a full zone goes back to its list. */
  function Given(h: Heap, a: nat, p: nat): Heap
    requires a in h.zones && h.zones[a].index < |h.lists|
  {
    var z := h.zones[a];
    h.(zones := h.zones[a := GiveChunk(z, p)],
       lists := if z.nfree == 0 then h.lists[z.index := [a] + h.lists[z.index]] else h.lists)
  }

  lemma GivenInv(c: Config, h: Heap, a: nat, p: nat)
    requires Inv(c, h) && InUse(h, a, p)
    ensures h.zones[a].index < Zones
    ensures Inv(c, Given(h, a, p)) && OneLess(h, Given(h, a, p), a, p) && a !in h.spare
    ensures a in Given(h, a, p).lists[h.zones[a].index]
  {
    assert ZoneGood(c, h, a);
    var z := h.zones[a];
    GiveOk(c, a * PageSize, z, p);
    var r := Given(h, a, p);
    forall j | 0 <= j < Zones
      ensures NoDup(r.lists[j]) && (forall b | b != a :: b in r.lists[j] <==> b in h.lists[j])
      ensures j != z.index ==> a !in r.lists[j]
    {
      assert ListGood(h, j);
    }
    assert z.nfree > 0 ==> a in h.lists[z.index];
    ZoneUpdated(c, h, r, a);
  }

  /** A zone without chunks in use leaves its list for the free zone list. */
  function Retired(h: Heap, a: nat): Heap
    requires a in h.zones && h.zones[a].index < |h.lists|
  {
    var i := h.zones[a].index;
    h.(lists := h.lists[i := Remove(h.lists[i], a)], spare := [a] + h.spare)
  }

  lemma RetiredInv(c: Config, h: Heap, a: nat)
    requires Inv(c, h) && a in h.zones && h.zones[a].nfree == h.zones[a].nmax && a !in h.spare && |h.spare| < 2
    ensures h.zones[a].index < Zones && Inv(c, Retired(h, a))
  {
    assert ZoneGood(c, h, a);
    AllFree(c, a * PageSize, h.zones[a]);
    var r, i := Retired(h, a), h.zones[a].index;
    assert ListGood(h, i);
    RemoveDistinct(h.lists[i], a);
    forall b | b in r.zones ensures ZoneGood(c, r, b) {
      assert ZoneGood(c, h, b);
    }
    forall j | 0 <= j < Zones ensures ListGood(r, j) {
      assert ListGood(h, j);
    }
    forall p | p in r.owner ensures PageGood(c, r, p) {
      assert PageGood(c, h, p);
    }
    forall b | b in r.large ensures LargeGood(r, b) {
      assert LargeGood(h, b);
    }
  }

  /** With two spare zones already, it goes back to the page allocator instead. */
  ghost function Released(c: Config, h: Heap, a: nat): Heap
    requires a in h.zones && h.zones[a].index < |h.lists|
  {
    var i := h.zones[a].index;
    h.(lists := h.lists[i := Remove(h.lists[i], a)], zones := h.zones - {a},
       pages := PageRuns.Free(h.pages, a, c.Pages()), owner := Claim(h.owner, a, c.Pages(), FreePage),
       usage := Unmark(h.usage, a, c.Pages()))
  }

  lemma ReleasedInv(c: Config, h: Heap, a: nat)
    requires Inv(c, h) && a in h.zones && h.zones[a].nfree == h.zones[a].nmax && a !in h.spare
    ensures h.zones[a].index < Zones && Inv(c, Released(c, h, a)) && Live(h.zones[a]) == {}
  {
    assert ZoneGood(c, h, a);
    AllFree(c, a * PageSize, h.zones[a]);
    var r, i, m := Released(c, h, a), h.zones[a].index, c.Pages();
    UnmarkIs(h.usage, a, m);
    assert Returned(c, h, r, a, m, ZonePage(a));
    ReturnedOwners(c, h, r, a, m, ZonePage(a));
    ReturnedLarge(c, h, r, a, m, ZonePage(a));
    assert ListGood(h, i);
    RemoveDistinct(h.lists[i], a);
    forall b | b in r.zones ensures ZoneGood(c, r, b) {
      ReturnedZones(c, h, r, a, m, ZonePage(a), b);
    }
    forall j | 0 <= j < Zones ensures ListGood(r, j) {
      assert ListGood(h, j);
    }
  }

  /** rt_malloc below the zone limit. */
  ghost function SmallAlloc(c: Config, h: Heap, n: nat): Result
    requires Inv(c, h) && 0 < n < c.Limit()
  {
    ZoneIndexFits(n);
    NewZoneOk(c, 0, n);
    var k := ZoneIndex(n);
    if h.lists[k.index] != [] then
      HeadZone(c, h, k.index);
      FromZone(h, k.index)
    else if h.spare != [] then FromSpare(c, h, k.index, k.chunk)
    else FromPages(c, h, k.index, k.chunk)
  }

  /** The number of pages that `n` bytes take. */
  function PageCount(n: nat): nat { (n + (PageSize - 1)) / PageSize }

  /** rt_malloc. */
  ghost function MallocStep(c: Config, h: Heap, n: nat): Result
    requires Inv(c, h)
  {
    if n == 0 then Result(None, h)
    else if n >= c.Limit() then LargeAlloc(h, PageCount(n))
    else SmallAlloc(c, h, n)
  }

  /** A request for nothing, or nothing to serve it from: no listed zone, no spare zone, no run of pages. */
  ghost predicate Refused(c: Config, h: Heap, n: nat)
    requires Inv(c, h)
  {
    if n == 0 then true
    else if n >= c.Limit() then PageRuns.Alloc(h.pages, PageCount(n)).addr.None?
    else
      ZoneIndexFits(n);
      h.lists[ZoneIndex(n).index] == [] && h.spare == [] && PageRuns.Alloc(h.pages, c.Pages()).addr.None?
  }

  /** What rt_malloc of `n` bytes gave: an unused chunk of at least `n` bytes, or whole pages that nobody owned. */
  ghost predicate Served(c: Config, h: Heap, r: Heap, n: nat, p: nat) {
    if n < c.Limit() then exists a :: OneMore(h, r, a, p) && Holds(r, a, p, n)
    else
      && r.zones == h.zones && n <= PageCount(n) * PageSize < n + PageSize
      && exists a :: a !in h.large && p == a * PageSize && r.large == h.large[a := PageCount(n)]
  }

  /** rt_malloc keeps the heap in order. It fails exactly for these requests. */
  lemma MallocInv(c: Config, h: Heap, n: nat)
    requires Inv(c, h)
    ensures var r := MallocStep(c, h, n);
      && Inv(c, r.heap) && (r.addr.None? <==> Refused(c, h, n)) && (r.addr.None? ==> r.heap == h)
      && (r.addr.Some? ==> Served(c, h, r.heap, n, r.addr.value))
  {
    if n >= c.Limit() {
      LargeAllocInv(c, h, PageCount(n));
    } else if n > 0 {
      ZoneIndexFits(n);
      var k := ZoneIndex(n);
      if h.lists[k.index] != [] {
        FromZoneInv(c, h, k.index);
      } else if h.spare != [] {
        FromSpareInv(c, h, n);
      } else {
        FromPagesInv(c, h, n);
      }
    }
  }

  /** The chunks of zone `a` are the smallest that hold `n` bytes. */
  ghost predicate LeastFor(h: Heap, a: nat, n: nat) {
    a in h.zones && n <= h.zones[a].size && forall i | 0 <= i < h.zones[a].index :: ChunkOf(i) < n
  }

  /** A small request gets a chunk of the smallest size that holds it. */
  lemma MallocLeast(c: Config, h: Heap, n: nat) returns (a: nat)
    requires Inv(c, h) && 0 < n < c.Limit() && MallocStep(c, h, n).addr.Some?
    ensures var r := MallocStep(c, h, n); InUse(r.heap, a, r.addr.value) && LeastFor(r.heap, a, n)
  {
    ZoneIndexFits(n);
    var k := ZoneIndex(n);
    if h.lists[k.index] != [] {
      HeadZone(c, h, k.index);
      FromZoneInv(c, h, k.index);
      a := h.lists[k.index][0];
    } else if h.spare != [] {
      FromSpareInv(c, h, n);
      a := h.spare[0];
    } else {
      FromPagesInv(c, h, n);
      a := PageRuns.Alloc(h.pages, c.Pages()).addr.value;
    }
    assert MallocStep(c, h, n).heap.zones[a].index == k.index;
    forall i | 0 <= i < k.index ensures ChunkOf(i) < n {
      ZoneIndexLeast(n, i);
    }
  }

  /** Where a small request is served from: a listed zone first, then a spare one, and new pages last. */
  ghost predicate Frugal(h: Heap, r: Heap, i: nat)
    requires i < |h.lists|
  {
    if h.lists[i] != [] then r.pages == h.pages && r.spare == h.spare && r.zones.Keys == h.zones.Keys
    else if h.spare != [] then
      r.pages == h.pages && r.spare == h.spare[1..] && r.zones.Keys == h.zones.Keys + {h.spare[0]}
    else r.spare == []
  }

  /** No page is ever forgotten, and zones are taken sparingly. */
  lemma MallocFrugal(c: Config, h: Heap, n: nat)
    requires Inv(c, h)
    ensures var r := MallocStep(c, h, n).heap;
      && r.owner.Keys == h.owner.Keys
      && (0 < n < c.Limit() ==> 0 <= ZoneIndex(n).index < Zones && Frugal(h, r, ZoneIndex(n).index))
  {
    if 0 < n < c.Limit() {
      ZoneIndexFits(n);
      if h.lists[ZoneIndex(n).index] != [] {
        HeadZone(c, h, ZoneIndex(n).index);
      }
    }
  }

  /** A zone that has become free is kept if it is the only one of its index, spared, or given back. */
  ghost function Settled(c: Config, h: Heap, a: nat): Heap
    requires a in h.zones && h.zones[a].index < |h.lists|
  {
    var z := h.zones[a];
    if z.nfree != z.nmax || h.lists[z.index] == [a] then h
    else if |h.spare| < 2 then Retired(h, a)
    else Released(c, h, a)
  }

  ghost function ChunkFree(c: Config, h: Heap, a: nat, p: nat): Heap
    requires a in h.zones && h.zones[a].index < |h.lists|
  {
    Settled(c, Given(h, a, p), a)
  }

  /** rt_free of a chunk in use takes that chunk out of use and no other, and leaves at most two spare zones. */
  lemma ChunkFreeInv(c: Config, h: Heap, a: nat, p: nat)
    requires Inv(c, h) && InUse(h, a, p)
    ensures h.zones[a].index < Zones
    ensures var r := ChunkFree(c, h, a, p); Inv(c, r) && OneLess(h, r, a, p)
  {
    GivenInv(c, h, a, p);
    var g := Given(h, a, p);
    SettledInv(c, g, a);
  }

  lemma SettledInv(c: Config, h: Heap, a: nat)
    requires Inv(c, h) && a in h.zones && a !in h.spare
    ensures h.zones[a].index < Zones
    ensures var r := Settled(c, h, a);
      Inv(c, r) && r.large == h.large && forall b, q :: InUse(r, b, q) <==> InUse(h, b, q)
  {
    assert ZoneGood(c, h, a);
    var z := h.zones[a];
    if z.nfree == z.nmax && h.lists[z.index] != [a] {
      if |h.spare| < 2 {
        RetiredInv(c, h, a);
      } else {
        ReleasedInv(c, h, a);
      }
    }
  }

  /** The `n` pages from `a` on are free. */
  ghost predicate AreFree(h: Heap, a: nat, n: nat) {
    forall p | a <= p < a + n :: p in PageRuns.Pages(h.pages)
  }

  /** The zone is kept where it is. */
  ghost predicate StaysListed(h: Heap, r: Heap, a: nat, i: nat) {
    i < |r.lists| && a in r.zones && a in r.lists[i] && r.spare == h.spare && r.pages == h.pages
  }

  /** The zone is spared, or its pages are given back if two are spared already. */
  ghost predicate Reclaimed(c: Config, h: Heap, r: Heap, a: nat) {
    if |h.spare| < 2 then r.spare == [a] + h.spare && r.pages == h.pages
    else a !in r.zones && AreFree(r, a, c.Pages()) && r.spare == h.spare
  }

  /**
   What becomes of a zone when one of its chunks is freed: it is reclaimed exactly if that was the last chunk in
   use and the list has another zone.
   */
  lemma ZoneReclaimed(c: Config, h: Heap, a: nat, p: nat)
    requires Inv(c, h) && InUse(h, a, p)
    ensures h.zones[a].index < Zones
    ensures var r, i := ChunkFree(c, h, a, p), h.zones[a].index;
      && r.owner.Keys == h.owner.Keys
      && if Live(h.zones[a]) == {p} && exists b :: b != a && b in h.lists[i] then Reclaimed(c, h, r, a)
         else StaysListed(h, r, a, i)
  {
    GivenInv(c, h, a, p);
    var g, i := Given(h, a, p), h.zones[a].index;
    GivenEmpty(c, h, a, p, g);
    SettledWhere(c, g, a);
  }

  /** The chunk was the last in use, and another zone is in the list. */
  lemma GivenEmpty(c: Config, h: Heap, a: nat, p: nat, g: Heap)
    requires Inv(c, h) && InUse(h, a, p) && h.zones[a].index < Zones && g == Given(h, a, p) && Inv(c, g)
    requires a in g.lists[h.zones[a].index]
    ensures var z, i := h.zones[a], h.zones[a].index;
      && (Live(z) == {p} <==> g.zones[a].nfree == g.zones[a].nmax)
      && ((exists b :: b != a && b in h.lists[i]) <==> g.lists[i] != [a])
  {
    var z, i := h.zones[a], h.zones[a].index;
    assert ZoneGood(c, h, a) && ListGood(g, i);
    GiveOk(c, a * PageSize, z, p);
    AllFree(c, a * PageSize, g.zones[a]);
    OnlyOne(g.lists[i], a);
    assert forall b | b != a :: b in g.lists[i] <==> b in h.lists[i];
  }

  lemma SettledWhere(c: Config, h: Heap, a: nat)
    requires Inv(c, h) && a in h.zones && h.zones[a].index < Zones && a in h.lists[h.zones[a].index]
    ensures var r, z := Settled(c, h, a), h.zones[a];
      && r.owner.Keys == h.owner.Keys
      && if z.nfree == z.nmax && h.lists[z.index] != [a] then Reclaimed(c, h, r, a) else StaysListed(h, r, a, z.index)
  {
    var z := h.zones[a];
    assert ZoneGood(c, h, a);
    if z.nfree == z.nmax && h.lists[z.index] != [a] && |h.spare| >= 2 {
      ReturnedPages(c, h, a, c.Pages(), ZonePage(a));
    }
  }

  lemma OnlyOne(q: seq<nat>, a: nat)
    requires NoDup(q) && a in q
    ensures q == [a] <==> forall b :: b in q ==> b == a
  {
    if forall b :: b in q ==> b == a {
      assert forall i | 0 <= i < |q| :: q[i] in q;
      assert |q| > 1 ==> q[0] != q[1];
    }
  }

  /** memusage leads from a chunk in use to its zone. */
  lemma ZoneFound(c: Config, h: Heap, a: nat, p: nat)
    requires Inv(c, h) && InUse(h, a, p)
    ensures var g := p / PageSize; a <= g && g in h.usage && h.usage[g] == Small(g - a)
  {
    assert ZoneGood(c, h, a);
    LiveInside(c, a * PageSize, h.zones[a], p);
    assert a <= p / PageSize < a + c.Pages();
  }

  lemma LargeFound(c: Config, h: Heap, a: nat)
    requires Inv(c, h) && a in h.large
    ensures (a * PageSize) / PageSize == a && a in h.usage && h.usage[a] == Large(h.large[a])
  {
    assert LargeGood(h, a);
  }

  /** The table fits in the memory it describes. */
  lemma TableFits(n: nat, unit: nat)
    requires n > 0 && 0 < unit <= PageSize
    ensures 0 < PageCount(n * unit) <= n
  {
    assert 0 < n * unit <= n * PageSize;
  }

  /** The heap of an allocator that has served no request. */
  ghost function Fresh(pages: seq<PageRuns.Run>): Heap {
    Heap(map[], seq(Zones, _ => []), [], pages, map[], map[], map p | p in PageRuns.Pages(pages) :: FreePage)
  }

  /** The globals of the allocator. */
  class Slab {
    const c: Config
    var zones: map<nat, Zone>
    var lists: seq<seq<nat>>
    var spare: seq<nat>
    var spareCount: nat              // zone_free_cnt
    var pages: seq<PageRuns.Run>
    var usage: map<nat, Usage>

    ghost predicate Represents(h: Heap)
      reads this
    {
      && Inv(c, h)
      && h.zones == zones && h.lists == lists && h.spare == spare && h.pages == pages && h.usage == usage
      && spareCount == |spare|
    }

    constructor (c: Config, pages: seq<PageRuns.Run>)
      requires c.Ok() && PageRuns.Canonical(pages)
      ensures this.c == c && Represents(Fresh(pages))
    {
      this.c, this.pages := c, pages;
      zones, lists, spare, spareCount, usage := map[], seq(Zones, _ => []), [], 0, map[];
    }

    /**
     rt_system_heap_init: whole pages between two addresses, the first of them for the table memusage with
     `unit` bytes a page. Zones are as large as possible below a 1024th of the memory, from 32 to 128 KB.
     */
    static method HeapInit(hdr: nat, begin: nat, end: nat, unit: nat) returns (s: Slab?)
      requires 0 < hdr <= 64 && 0 < unit <= PageSize
      ensures s == null <==> PageCount(begin) >= end / PageSize
      ensures s != null ==> fresh(s) && s.c.hdr == hdr && var a, z := PageCount(begin), end / PageSize;
        && z > a && (exists h :: s.Represents(h) && h.zones == map[] && h.large == map[]
                       && PageRuns.Pages(h.pages) ==
                         PageRuns.Range(a, z - a) - PageRuns.Range(a, PageCount((z - a) * unit)))
        && (s.c.size > 0x8000 ==> s.c.size < (z - a) * PageSize / 1024)
        && (s.c.size < 0x2_0000 ==> 2 * s.c.size >= (z - a) * PageSize / 1024)
    {
      var a, z := PageCount(begin), end / PageSize;
      if a >= z {
        return null;
      }
      var limit, npages := (z - a) * PageSize, z - a;
      var pages := PageRuns.Free([], a, npages);
      PageRuns.FreePages([], a, npages);
      var size := 0x8000;
      while size < 0x2_0000 && 2 * size < limit / 1024
        invariant size == 0x8000 || size == 0x1_0000 || size == 0x2_0000
        invariant size > 0x8000 ==> size < limit / 1024
        decreases 0x2_0000 - size
      {
        size := 2 * size;
      }
      TableFits(npages, unit);
      var t := PageRuns.Alloc(pages, PageCount(npages * unit));
      PageRuns.AllocPages(pages, PageCount(npages * unit));
      s := new Slab(Config(size, hdr), t.list);
    }

    /** rt_malloc from the zone at the head of list `i`. */
    method TakeFrom(i: nat, size: nat, ghost h: Heap) returns (p: nat)
      requires Represents(h) && i < Zones && lists[i] != [] && size == ChunkOf(i)
      requires h.lists[i][0] in h.zones && h.zones[h.lists[i][0]].nfree > 0
      requires var z := h.zones[h.lists[i][0]]; z.uindex + 1 == z.nmax ==> z.free != []
      modifies this
      ensures var r := FromZone(h, i); Represents(r.heap) && r.addr == Some(p) && Holds(r.heap, h.lists[i][0], p, size)
    {
      HeadZone(c, h, i);
      FromZoneInv(c, h, i);
      var a := lists[i][0];
      var z;
      p, z := Pop(zones[a], size);
      if z.nfree == 0 {
        lists := lists[i := lists[i][1..]];
      }
      zones := zones[a := z];
    }

    /** A chunk of one zone: the next unused one, or the first of its free list. */
    static method Pop(zone: Zone, size: nat) returns (p: nat, z: Zone)
      requires zone.nfree > 0 && (zone.uindex + 1 == zone.nmax ==> zone.free != []) && zone.size == size
      ensures TakeChunk(zone) == Got(p, z)
    {
      z := zone.(nfree := zone.nfree - 1);
      if z.uindex + 1 != z.nmax {
        z := z.(uindex := z.uindex + 1);
        p := z.base + z.uindex * size;
        TimesIs(z.uindex, size);
      } else {
        p := z.free[0];
        z := z.(free := z.free[1..]);
      }
    }

    /** How many chunks fit. */
    method Capacity(room: nat, size: nat) returns (n: nat)
      requires size > 0
      ensures n == Quotient(room, size)
    {
      QuotientIs(room, size);
      n := room / size;
    }

    method AddZone(a: nat, i: nat, size: nat, ghost h: Heap) returns (p: nat)
      requires h.zones == zones && h.lists == lists && i < |lists| && c.Ok() && size > 0 && Offset(c, size) <= c.size
      modifies `zones, `lists
      ensures var r := Install(c, h, a, i, size); zones == r.heap.zones && lists == r.heap.lists && r.addr == Some(p)
    {
      var off := Offset(c, size);
      var nmax := Capacity(c.size - off, size);
      p := a * PageSize + off;
      var z := Zone(if nmax > 0 then nmax - 1 else 0, nmax, 0, size, i, p, []);
      lists := lists[i := [a] + lists[i]];
      zones := zones[a := z];
    }

    method MarkPages(a: nat, n: nat)
      modifies `usage
      ensures usage == Mark(old(usage), a, n)
    {
      for off := 0 to n
        invariant usage == Mark(old(usage), a, off)
      {
        usage := usage[a + off := Small(off)];
      }
    }

    method UnmarkPages(a: nat, n: nat)
      modifies `usage
      ensures usage == Unmark(old(usage), a, n)
    {
      for i := 0 to n
        invariant usage == Unmark(old(usage), a, i)
      {
        usage := usage[a + i := Unused];
      }
    }

    method SmallMalloc(n: nat, ghost h: Heap) returns (addr: Option<nat>)
      requires Represents(h) && 0 < n < c.Limit()
      modifies this
      ensures var r := SmallAlloc(c, h, n);
        && Represents(r.heap) && addr == r.addr && (addr.None? <==> Refused(c, h, n))
        && (addr.Some? ==> Served(c, h, r.heap, n, addr.value))
    {
      MallocInv(c, h, n);
      ZoneIndexFits(n);
      var k := ZoneIndex(n);
      if lists[k.index] != [] {
        HeadZone(c, h, k.index);
        var p := TakeFrom(k.index, k.chunk, h);
        return Some(p);
      }
      if spare != [] {
        addr := TakeSpare(k, n, h);
      } else {
        addr := TakePages(k, n, h);
      }
    }

    /** rt_malloc from a spare zone. */
    method TakeSpare(k: Class, ghost n: nat, ghost h: Heap) returns (addr: Option<nat>)
      requires Represents(h) && 0 < n < c.Limit() && k == ZoneIndex(n) && spare != []
      modifies this
      ensures 0 <= k.index < |h.lists| && k.chunk > 0 && Offset(c, k.chunk) <= c.size
      ensures var r := FromSpare(c, h, k.index, k.chunk); Represents(r.heap) && addr == r.addr
    {
      FromSpareInv(c, h, n);
      var a := spare[0];
      spare, spareCount := spare[1..], spareCount - 1;
      var p := AddZone(a, k.index, k.chunk, h.(spare := spare));
      addr := Some(p);
    }

    /** rt_malloc from pages for a new zone. */
    method TakePages(k: Class, ghost n: nat, ghost h: Heap) returns (addr: Option<nat>)
      requires Represents(h) && 0 < n < c.Limit() && k == ZoneIndex(n)
      modifies this
      ensures 0 <= k.index < |h.lists| && k.chunk > 0 && Offset(c, k.chunk) <= c.size
      ensures var r := FromPages(c, h, k.index, k.chunk); Represents(r.heap) && addr == r.addr
    {
      FromPagesInv(c, h, n);
      var t := PageRuns.Alloc(pages, c.Pages());
      if t.addr.None? {
        return None;
      }
      var a := t.addr.value;
      pages := t.list;
      MarkPages(a, c.Pages());
      var p := AddZone(a, k.index, k.chunk,
                       h.(pages := pages, owner := Claim(h.owner, a, c.Pages(), ZonePage(a)), usage := usage));
      addr := Some(p);
    }

    method Malloc(n: nat, ghost h: Heap) returns (addr: Option<nat>)
      requires Represents(h)
      modifies this
      ensures var r := MallocStep(c, h, n);
        && Represents(r.heap) && addr == r.addr && (addr.None? <==> Refused(c, h, n))
        && (addr.Some? ==> Served(c, h, r.heap, n, addr.value))
    {
      MallocInv(c, h, n);
      if n == 0 {
        return None;
      }
      if n >= c.Limit() {
        LargeAllocInv(c, h, PageCount(n));
        var t := PageRuns.Alloc(pages, PageCount(n));
        if t.addr.None? {
          return None;
        }
        pages, usage := t.list, usage[t.addr.value := Large(PageCount(n))];
        return Some(t.addr.value * PageSize);
      }
      addr := SmallMalloc(n, h);
    }

    /** Walk the list of index `i` to zone `a` and unlink it. */
    method Unlink(i: nat, a: nat)
      requires i < |lists| && a in lists[i]
      modifies `lists
      ensures lists == old(lists)[i := Remove(old(lists)[i], a)]
    {
      var q := lists[i];
      var pz := 0;
      while q[pz] != a
        invariant lists == old(lists) && pz < |q| && pz <= IndexOf(q, a)
        decreases |q| - pz
      {
        NotBefore(q, a, pz);
        pz := pz + 1;
      }
      NotBefore(q, a, pz);
      lists := lists[i := q[..pz] + q[pz + 1..]];
    }

    /** The last part of rt_free: what becomes of a zone without chunks in use. */
    method Settle(a: nat, ghost h: Heap)
      requires Represents(h) && a in h.zones && a !in h.spare
      requires h.zones[a].index < |h.lists| && a in h.lists[h.zones[a].index]
      modifies this
      ensures h.zones[a].index < Zones && Represents(Settled(c, h, a))
    {
      SettledInv(c, h, a);
      var i := zones[a].index;
      if zones[a].nfree == zones[a].nmax && lists[i] != [a] {
        Unlink(i, a);
        spare, spareCount := [a] + spare, spareCount + 1;
        if spareCount > 2 {
          ReturnSpare();
        }
      }
    }

    /** The first spare zone goes back to the page allocator. */
    method ReturnSpare()
      requires spare != [] && spareCount > 0
      modifies `spare, `spareCount, `usage, `pages, `zones
      ensures spare == old(spare)[1..] && spareCount == old(spareCount) - 1 && zones == old(zones) - {old(spare)[0]}
      ensures usage == Unmark(old(usage), old(spare)[0], c.Pages())
      ensures pages == PageRuns.Free(old(pages), old(spare)[0], c.Pages())
    {
      var z := spare[0];
      spare, spareCount := spare[1..], spareCount - 1;
      UnmarkPages(z, c.Pages());
      pages := PageRuns.Free(pages, z, c.Pages());
      zones := zones - {z};
    }

    /** The chunk goes to the front of the free list of its zone. */
    method GiveBack(a: nat, p: nat, ghost h: Heap)
      requires Represents(h) && InUse(h, a, p)
      modifies this
      ensures h.zones[a].index < Zones && Represents(Given(h, a, p)) && a in Given(h, a, p).lists[h.zones[a].index]
    {
      GivenInv(c, h, a, p);
      var z := zones[a];
      if z.nfree == 0 {
        lists := lists[z.index := [a] + lists[z.index]];
      }
      zones := zones[a := z.(nfree := z.nfree + 1, free := [p] + z.free)];
    }

    /** rt_free of a chunk in use: memusage leads to its zone. */
    method FreeChunk(p: nat, ghost a: nat, ghost h: Heap)
      requires Represents(h) && InUse(h, a, p)
      modifies this
      ensures h.zones[a].index < Zones && Represents(ChunkFree(c, h, a, p)) && OneLess(h, ChunkFree(c, h, a, p), a, p)
    {
      ZoneFound(c, h, a, p);
      ChunkFreeInv(c, h, a, p);
      var g := p / PageSize;
      var z := g - usage[g].off;
      assert a !in h.spare by {
        GivenInv(c, h, a, p);
      }
      GiveBack(z, p, h);
      Settle(z, Given(h, a, p));
    }

    /** rt_free of whole pages. */
    method FreeLarge(p: nat, ghost a: nat, ghost h: Heap)
      requires Represents(h) && a in h.large && p == a * PageSize
      modifies this
      ensures Represents(LargeFree(h, a))
    {
      LargeFound(c, h, a);
      LargeFreeInv(c, h, a);
      var g := p / PageSize;
      var n := usage[g].n;
      usage := usage[g := Large(0)];
      pages := PageRuns.Free(pages, g, n);
    }

    /** rt_free: RT_NULL, a large allocation or a chunk, which memusage tells apart. */
    method Free(ptr: Option<nat>, ghost a: nat, ghost h: Heap)
      requires Represents(h)
      requires ptr.Some? ==> InUse(h, a, ptr.value) || (a in h.large && ptr.value == a * PageSize)
      modifies this
      ensures ptr.None? ==> Represents(h)
      ensures ptr.Some? && InUse(h, a, ptr.value) ==>
        && h.zones[a].index < Zones && Represents(ChunkFree(c, h, a, ptr.value))
        && OneLess(h, ChunkFree(c, h, a, ptr.value), a, ptr.value)
      ensures ptr.Some? && !InUse(h, a, ptr.value) ==> Represents(LargeFree(h, a))
    {
      if ptr.None? {
        return;
      }
      var p := ptr.value;
      if InUse(h, a, p) {
        ZoneFound(c, h, a, p);
      } else {
        LargeFound(c, h, a);
      }
      if usage[p / PageSize].Large? {
        FreeLarge(p, a, h);
      } else {
        FreeChunk(p, a, h);
      }
    }
  }

  lemma {:induction false} NotBefore(q: seq<nat>, a: nat, k: nat)
    requires a in q && k <= IndexOf(q, a)
    ensures if q[k] == a then k == IndexOf(q, a) else k < IndexOf(q, a)
  {
    if k > 0 {
      NotBefore(q[1..], a, k - 1);
    }
  }
}
