/**
 The search for dependency loops (_check_dep_loop_sym in tools/kconfiglib.py), for graphs
 without choices. `deps[s]` are the symbols that depend on symbol `s`.
 */
module LoopSearch {
  import opened Sequences

  type Sym = nat
  type Dependents = seq<seq<Sym>>

  ghost predicate Closed(deps: Dependents) {
    forall s, i | 0 <= s < |deps| && 0 <= i < |deps[s]| :: deps[s][i] < |deps|
  }

  /** Each symbol of `path` is a dependent of the one after it. */
  ghost predicate Chain(deps: Dependents, path: seq<Sym>) {
    && (forall i | 0 <= i < |path| :: path[i] < |deps|)
    && (forall i | 0 <= i < |path| - 1 :: Edge(deps, path[i + 1], path[i]))
  }

  /** `t` depends on `s`. */
  ghost predicate Edge(deps: Dependents, s: Sym, t: Sym)
    requires s < |deps|
  {
    t in deps[s]
  }

  /** A dependency loop. */
  ghost predicate Cycle(deps: Dependents, loop: seq<Sym>) {
    loop != [] && Chain(deps, loop) && Edge(deps, loop[0], loop[|loop| - 1])
  }

  /** A symbol is unvisited, being visited, or known not to be part of a loop. */
  datatype Mark = White | Grey | Black

  /** The finished symbols in the order they were finished: all dependents of one come before it. */
  ghost predicate Finished(deps: Dependents, order: seq<Sym>) {
    && (forall i | 0 <= i < |order| :: order[i] < |deps|)
    && (forall i | 0 <= i < |order| :: DependentsBefore(deps, order, i))
  }

  ghost predicate DependentsBefore(deps: Dependents, order: seq<Sym>, i: nat)
    requires i < |order| && order[i] < |deps|
  {
    forall t | t in deps[order[i]] :: t in order[..i]
  }

  /** The marks say which symbols are on the call stack and which are finished. */
  ghost predicate Marked(deps: Dependents, visited: seq<Mark>, stack: seq<Sym>, order: seq<Sym>) {
    && |visited| == |deps|
    && (forall s | 0 <= s < |visited| :: visited[s] == Grey <==> s in stack)
    && (forall s | 0 <= s < |visited| :: visited[s] == Black <==> s in order)
    && Finished(deps, order)
  }

  lemma FinishOne(deps: Dependents, order: seq<Sym>, s: Sym)
    requires Finished(deps, order) && s < |deps| && forall t | t in deps[s] :: t in order
    ensures Finished(deps, order + [s])
  {
    var order' := order + [s];
    forall i | 0 <= i < |order'| ensures order'[i] < |deps| && DependentsBefore(deps, order', i) {
      if i < |order| {
        assert DependentsBefore(deps, order, i);
        assert order'[..i] == order[..i];
      } else {
        assert order'[..i] == order;
      }
    }
  }

  /** A symbol that occurs, and the first place it occurs at. */
  lemma First(order: seq<Sym>, s: Sym) returns (i: nat)
    requires s in order
    ensures i < |order| && order[i] == s && s !in order[..i]
  {
    i := IndexOf(order, s);
    if s in order[..i] {
      IndexWithin(order, s, i);
    }
  }

  /** The place in the order of finishing falls along every dependency. */
  lemma {:induction false} PlaceFalls(deps: Dependents, order: seq<Sym>, path: seq<Sym>, k: nat, i: nat)
    requires Finished(deps, order) && Chain(deps, path) && k < |path|
    requires i < |order| && order[i] == path[|path| - 1] && path[|path| - 1] !in order[..i]
    ensures path[k] in order[..i] || k == |path| - 1
    decreases |path| - k
  {
    if k < |path| - 1 {
      PlaceFalls(deps, order, path, k + 1, i);
      assert Edge(deps, path[k + 1], path[k]);
      if k + 1 == |path| - 1 {
        assert DependentsBefore(deps, order, i);
      } else {
        var j := First(order[..i], path[k + 1]);
        assert DependentsBefore(deps, order, j);
        assert order[..i][..j] == order[..j];
      }
    }
  }

  /** If everything could be finished, there is no loop. */
  lemma FinishedAcyclic(deps: Dependents, order: seq<Sym>, loop: seq<Sym>)
    requires Finished(deps, order) && forall s | 0 <= s < |deps| :: s in order
    ensures !Cycle(deps, loop)
  {
    if Cycle(deps, loop) {
      var path := [loop[|loop| - 1]] + loop;
      forall i | 0 <= i < |path| - 1 ensures Edge(deps, path[i + 1], path[i]) {
        if i > 0 {
          assert Edge(deps, loop[i], loop[i - 1]);
        }
      }
      var i := First(order, path[0]);
      PlaceFalls(deps, order, path, 0, i);
    }
  }

  datatype Outcome = Fine | Found(loop: seq<Sym>) | Raised(loop: seq<Sym>)

  /** What a call that has met a symbol on the stack returns: the chain from there to the symbol it was called for. */
  ghost predicate Leads(deps: Dependents, loop: seq<Sym>, stack: seq<Sym>, s: Sym) {
    loop != [] && Chain(deps, loop) && loop[0] in stack && loop[|loop| - 1] == s
  }

  lemma ChainGrows(deps: Dependents, loop: seq<Sym>, s: Sym)
    requires loop != [] && Chain(deps, loop) && s < |deps| && Edge(deps, s, loop[|loop| - 1])
    ensures Chain(deps, loop + [s])
  {
    var l := loop + [s];
    forall i | 0 <= i < |l| - 1 ensures Edge(deps, l[i + 1], l[i]) {
      if i < |loop| - 1 {
        assert Edge(deps, loop[i + 1], loop[i]);
      }
    }
  }

  ghost function Whites(visited: seq<Mark>): set<Sym> {
    set s | 0 <= s < |visited| && visited[s] == White
  }

  class Search {
    const deps: Dependents
    var visited: seq<Mark>
    ghost var order: seq<Sym>

    ghost predicate Valid(stack: seq<Sym>)
      reads this
    {
      Closed(deps) && Marked(deps, visited, stack, order)
    }

    constructor (deps: Dependents)
      requires Closed(deps)
      ensures this.deps == deps && Valid([]) && order == []
    {
      this.deps := deps;
      visited := seq(|deps|, _ => White);
      order := [];
    }

    /** _found_dep_loop: on the way back, complete the loop or pass it on. */
    method FoundLoop(loop: seq<Sym>, cur: Sym, ghost stack: seq<Sym>) returns (r: Outcome)
      requires cur < |deps| && loop != [] && Chain(deps, loop) && loop[0] in stack + [cur]
        && Edge(deps, cur, loop[|loop| - 1])
      ensures r.Found? ==> Leads(deps, r.loop, stack, cur)
      ensures r.Raised? ==> Cycle(deps, r.loop)
      ensures r.Found? || r.Raised?
    {
      if cur != loop[0] {
        ChainGrows(deps, loop, cur);
        return Found(loop + [cur]);
      }
      r := Raised(loop);
    }

    /** _check_dep_loop_sym: three-colour depth-first search. `stack` are the callers. */
    method CheckSym(sym: Sym, ghost stack: seq<Sym>) returns (r: Outcome)
      requires Valid(stack) && sym < |deps|
      modifies this
      ensures r.Fine? ==> Valid(stack) && sym in order && old(order) <= order
      ensures r.Found? ==> Leads(deps, r.loop, stack, sym)
      ensures r.Raised? ==> Cycle(deps, r.loop)
      ensures Whites(visited) <= Whites(old(visited))
      decreases Whites(visited)
    {
      if visited[sym] == White {
        assert sym in Whites(visited);
        visited := visited[sym := Grey];
        assert sym !in Whites(visited);
        var i := 0;
        while i < |deps[sym]|
          invariant i <= |deps[sym]|
          invariant Valid(stack + [sym]) && old(order) <= order
          invariant forall j | 0 <= j < i :: deps[sym][j] in order
          invariant Whites(visited) < Whites(old(visited))
        {
          var dep := deps[sym][i];
          var loop := CheckSym(dep, stack + [sym]);
          match loop {
            case Raised(_) => return loop;
            case Found(l) =>
              r := FoundLoop(l, sym, stack);
              return;
            case Fine =>
          }
          i := i + 1;
        }
        visited := visited[sym := Black];
        FinishOne(deps, order, sym);
        order := order + [sym];
        return Fine;
      }
      if visited[sym] == Black {
        return Fine;
      }
      r := Found([sym]);
    }

    /** The loop of Kconfig.__init__ over all symbols: an exception is raised exactly if there is a dependency loop. */
    method CheckAll() returns (r: Outcome)
      requires Valid([]) && order == []
      modifies this
      ensures r.Raised? <==> exists loop :: Cycle(deps, loop)
      ensures if r.Raised? then Cycle(deps, r.loop)
              else Finished(deps, order) && forall s | 0 <= s < |deps| :: s in order
    {
      for sym := 0 to |deps|
        invariant Valid([]) && forall s | 0 <= s < sym :: s in order
      {
        ghost var before := order;
        r := CheckSym(sym, []);
        if r.Raised? {
          return;
        }
        assert r.Fine?;
        forall s | 0 <= s < sym ensures s in order {
          assert s in before;
        }
      }
      forall loop ensures !Cycle(deps, loop) {
        FinishedAcyclic(deps, order, loop);
      }
      r := Fine;
    }
  }
}

/** What the search means for the values: a check that passes makes evaluation well founded. */
module LoopFree {
  import opened Sequences
  import KconfigValue
  import LoopSearch

  type Sym = KconfigValue.Sym

  /** All symbols mentioned are defined. */
  ghost predicate Defined(g: KconfigValue.Graph) {
    && (forall s | 0 <= s < |g.syms| :: DefinedDeps(g, s))
    && (g.modules.Some? ==> g.modules.value < |g.syms|)
  }

  ghost predicate DefinedDeps(g: KconfigValue.Graph, s: Sym)
    requires s < |g.syms|
  {
    forall d | d in KconfigValue.DependsOn(g.syms[s]) :: d < |g.syms|
  }

  /** `deps` are the dependents that _build_dep collects. */
  ghost predicate Built(g: KconfigValue.Graph, deps: LoopSearch.Dependents) {
    && |deps| == |g.syms| && LoopSearch.Closed(deps)
    && forall d, s | 0 <= d < |g.syms| && 0 <= s < |g.syms| :: LoopSearch.Edge(deps, d, s) <==> DependsOnSym(g, s, d)
  }

  ghost predicate DependsOnSym(g: KconfigValue.Graph, s: Sym, d: Sym)
    requires s < |g.syms|
  {
    d in KconfigValue.DependsOn(g.syms[s])
  }

  /** _build_dep: every symbol registers with the symbols it depends on. */
  method BuildDep(g: KconfigValue.Graph) returns (deps: LoopSearch.Dependents)
    requires Defined(g)
    ensures Built(g, deps)
  {
    deps := seq(|g.syms|, _ => []);
    for s := 0 to |g.syms|
      invariant |deps| == |g.syms| && LoopSearch.Closed(deps)
      invariant forall d, t | 0 <= d < |g.syms| && 0 <= t < |g.syms| ::
        LoopSearch.Edge(deps, d, t) <==> t < s && DependsOnSym(g, t, d)
    {
      ghost var before := deps;
      for d := 0 to |g.syms|
        invariant |deps| == |g.syms| && LoopSearch.Closed(deps)
        invariant forall c, t | 0 <= c < |g.syms| && 0 <= t < |g.syms| ::
          LoopSearch.Edge(deps, c, t) <==> LoopSearch.Edge(before, c, t) || (t == s && c < d && DependsOnSym(g, s, c))
      {
        if d in KconfigValue.DependsOn(g.syms[s]) {
          deps := deps[d := deps[d] + [s]];
        }
      }
    }
  }

  /**
   Reading MODULES is not a dependency the search knows of. `d` shows that it cannot close a
   loop: it holds MODULES and all it depends on, directly or not, and no tristate symbol.
   */
  ghost predicate Separates(g: KconfigValue.Graph, d: set<Sym>) {
    g.modules.Some? ==>
      && g.modules.value in d
      && (forall s | s in d && s < |g.syms| :: KconfigValue.DependsOn(g.syms[s]) <= d)
      && (forall s | s in d && s < |g.syms| :: !g.syms[s].tristate)
  }

  ghost predicate Total(order: seq<Sym>, n: nat) {
    forall s | 0 <= s < n :: s in order
  }

  /** A rank for every symbol: dependents were finished earlier, so they rank higher; what `d` holds ranks lowest. */
  ghost function Rank(order: seq<Sym>, d: set<Sym>, s: Sym): nat
    requires s in order
  {
    |order| - IndexOf(order, s) + if s in d then 0 else |order|
  }

  ghost function Ranked(g: KconfigValue.Graph, order: seq<Sym>, d: set<Sym>): (r: KconfigValue.Graph)
    requires Total(order, |g.syms|)
  {
    g.(rank := seq(|g.syms|, s requires 0 <= s < |g.syms| => Rank(order, d, s)))
  }

  /** Once every symbol could be finished, the value of every symbol depends on symbols of lower rank only. */
  lemma CheckedWellFounded(g: KconfigValue.Graph, deps: LoopSearch.Dependents, order: seq<Sym>, d: set<Sym>)
    requires Defined(g) && Built(g, deps) && LoopSearch.Finished(deps, order) && Total(order, |g.syms|)
      && Separates(g, d)
    ensures g.modules.None? ==> KconfigValue.WellFounded(Ranked(g, order, {}))
    ensures g.modules.Some? ==> KconfigValue.WellFounded(Ranked(g, order, d))
  {
    var e := if g.modules.Some? then d else {};
    var r := Ranked(g, order, e);
    forall s | 0 <= s < |g.syms| ensures KconfigValue.RankedBelow(r, s) {
      forall x | x in KconfigValue.DependsOn(g.syms[s]) ensures x < |g.syms| && r.rank[x] < r.rank[s] {
        assert DefinedDeps(g, s);
        assert LoopSearch.Edge(deps, x, s) <==> DependsOnSym(g, s, x);
        var i := IndexOf(order, x);
        assert LoopSearch.DependentsBefore(deps, order, i);
        IndexWithin(order, s, i);
      }
    }
  }

  /** _build_dep and the search for loops, on a parsed configuration. */
  method CheckLoops(g: KconfigValue.Graph) returns (raised: bool, deps: LoopSearch.Dependents, ghost order: seq<Sym>)
    requires Defined(g)
    ensures Built(g, deps)
    ensures raised <==> exists loop :: LoopSearch.Cycle(deps, loop)
    ensures !raised ==> Total(order, |g.syms|) && forall d | Separates(g, d) ::
      KconfigValue.WellFounded(Ranked(g, order, if g.modules.Some? then d else {}))
  {
    deps := BuildDep(g);
    var search := new LoopSearch.Search(deps);
    var r := search.CheckAll();
    raised, order := r.Raised?, search.order;
    if !raised {
      forall d | Separates(g, d)
        ensures KconfigValue.WellFounded(Ranked(g, order, if g.modules.Some? then d else {}))
      {
        CheckedWellFounded(g, deps, order, d);
      }
    }
  }

  lemma EdgeRank(g: KconfigValue.Graph, deps: LoopSearch.Dependents, s: Sym, t: Sym)
    requires KconfigValue.WellFounded(g) && Built(g, deps) && s < |g.syms| && t < |g.syms|
      && LoopSearch.Edge(deps, s, t)
    ensures g.rank[s] < g.rank[t]
  {
    assert DependsOnSym(g, t, s);
    assert KconfigValue.RankedBelow(g, t);
  }

  lemma {:induction false} RankFalls(g: KconfigValue.Graph, deps: LoopSearch.Dependents, path: seq<Sym>, k: nat)
    requires KconfigValue.WellFounded(g) && Built(g, deps) && LoopSearch.Chain(deps, path) && k < |path|
    ensures path[k] < |g.syms| && path[|path| - 1] < |g.syms| && g.rank[path[k]] >= g.rank[path[|path| - 1]]
    decreases |path| - k
  {
    if k < |path| - 1 {
      RankFalls(g, deps, path, k + 1);
      EdgeRank(g, deps, path[k + 1], path[k]);
    }
  }

  /**
   Conversely, whenever evaluation is well founded the check passes, and some set separates MODULES from the
   tristates.
   */
  lemma WellFoundedPasses(g: KconfigValue.Graph, deps: LoopSearch.Dependents, loop: seq<Sym>) returns (d: set<Sym>)
    requires KconfigValue.WellFounded(g) && Built(g, deps)
    ensures !LoopSearch.Cycle(deps, loop) && Separates(g, d)
  {
    if LoopSearch.Cycle(deps, loop) {
      EdgeRank(g, deps, loop[0], loop[|loop| - 1]);
      RankFalls(g, deps, loop, 0);
    }
    d := {};
    if g.modules.Some? {
      var m := g.modules.value;
      d := set s | 0 <= s < |g.syms| && g.rank[s] <= g.rank[m];
      forall s | s in d ensures KconfigValue.DependsOn(g.syms[s]) <= d && !g.syms[s].tristate {
        assert KconfigValue.RankedBelow(g, s);
      }
    }
  }

  /** A single tristate symbol, by default m, that is MODULES itself and depends on nothing. */
  function TristateModules(): KconfigValue.Graph {
    var n, always := KconfigValue.Const(0), KconfigValue.Const(2);
    var d := KconfigValue.SymDef(true, [], [(KconfigValue.Const(1), always)], n, n, n);
    KconfigValue.Graph([d], Some(0), [0])
  }

  /** Whatever values are given, finding its value looks at itself: whether m becomes y depends on MODULES. */
  lemma ReadsItself(user: Option<KconfigValue.Tri>, w: seq<KconfigValue.Tri>)
    ensures 0 in KconfigValue.EvalTri(TristateModules(), user, 0, w).deps
  {
    var g := TristateModules();
    var d := g.syms[0];
    assert KconfigValue.EvalPrompts(d.prompts, w).v == 0;
    assert KconfigValue.EvalDefaults(d.defaults, w).v == 1;
    assert KconfigValue.EvalSelected(g, user, 0, w).v == 1;
  }

  /** So no rank makes its evaluation well founded; yet it has no dependents, and the check finds no loop. */
  lemma ModulesUnseen(deps: LoopSearch.Dependents, loop: seq<Sym>, rank: seq<nat>)
    requires Built(TristateModules(), deps)
    ensures Defined(TristateModules()) && !LoopSearch.Cycle(deps, loop)
    ensures !KconfigValue.WellFounded(TristateModules().(rank := rank))
  {
    var g := TristateModules();
    NoDependencies();
    forall s, t | 0 <= s < 1 && 0 <= t < 1 ensures !LoopSearch.Edge(deps, s, t) {
      assert LoopSearch.Edge(deps, s, t) <==> DependsOnSym(g, t, s);
    }
    if |rank| == 1 {
      assert !KconfigValue.RankedBelow(g.(rank := rank), 0);
    }
  }

  lemma NoDependencies()
    ensures KconfigValue.DependsOn(TristateModules().syms[0]) == {} && Defined(TristateModules())
  {
    var d := TristateModules().syms[0];
    assert KconfigValue.DefaultMentions(d.defaults) == {};
  }

  /** So the check passes on it. */
  method PassesUnfounded() returns (raised: bool)
    ensures !raised
  {
    NoDependencies();
    var deps;
    ghost var order;
    raised, deps, order := CheckLoops(TristateModules());
    if raised {
      ghost var loop :| LoopSearch.Cycle(deps, loop);
      ModulesUnseen(deps, loop, [0]);
    }
  }
}
