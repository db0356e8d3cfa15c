/** What programs do with an allocator: any sequence of allocations, releases and size changes. */
module Clients {
  import opened Sequences

  /** What a client may do next: allocate, or free or resize the k-th pointer it holds. */
  datatype Op = Acquire(size: nat) | Release(k: nat) | Change(k: nat, size: nat)

  /** A pointer, and the size last asked for with it. */
  datatype Held = Held(p: nat, size: nat)

  /** What a client holds after one call that returned `r`. */
  function Play(held: seq<Held>, op: Op, r: Option<nat>): seq<Held> {
    match op
    case Acquire(size) => if r.None? then held else held + [Held(r.value, size)]
    case Release(k) => if k < |held| then Without(held, k) else held
    case Change(k, size) =>
      if k >= |held| then held
      else if size == 0 then Without(held, k)
      else if r.None? then held
      else held[k := Held(r.value, size)]
  }

  function Without(held: seq<Held>, k: nat): (r: seq<Held>)
    requires k < |held|
    ensures |r| == |held| - 1 && forall i | 0 <= i < |r| :: r[i] == if i < k then held[i] else held[i + 1]
  {
    held[..k] + held[k + 1..]
  }

  /** What it holds after the calls `ops` that returned `results`. */
  function Played(ops: seq<Op>, results: seq<Option<nat>>): seq<Held>
    requires |results| == |ops|
  {
    if ops == [] then []
    else
      var n := |ops| - 1;
      Play(Played(ops[..n], results[..n]), ops[n], results[n])
  }

  lemma PlayedOn(ops: seq<Op>, results: seq<Option<nat>>, n: nat, r: Option<nat>)
    requires n < |ops| && |results| == n
    ensures Played(ops[..n + 1], results + [r]) == Play(Played(ops[..n], results), ops[n], r)
  {
    assert ops[..n + 1][..n] == ops[..n] && (results + [r])[..n] == results;
  }

  /** No pointer is held twice. */
  ghost predicate Distinct(held: seq<Held>) {
    forall i, j | 0 <= i < j < |held| :: held[i].p != held[j].p
  }
}
