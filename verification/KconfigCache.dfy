/**
 Values of Kconfig symbols (tools/kconfiglib.py): what a symbol's value is, as a function
 of the user's choices, and which other symbols its computation looks at.

 Symbols are non-choice bool and tristate symbols, numbered. Tristate values are 0 (n),
 1 (m) and 2 (y). Constant and undefined symbols never change value: they are constants.
 */
module KconfigValue {
  import opened Sequences

  type Tri = x: int | 0 <= x <= 2
  type Sym = nat

  datatype Relation = Equal | Unequal | Less | LessEqual | Greater | GreaterEqual
  datatype Operand = Value(v: Tri) | Of(s: Sym)

  datatype Expr =
    | Const(v: Tri)
    | Ref(s: Sym)
    | And(l: Expr, r: Expr)
    | Or(l: Expr, r: Expr)
    | Not(e: Expr)
    | Rel(op: Relation, a: Operand, b: Operand)

  /** `prompts` are the conditions of the nodes that have a prompt. */
  datatype SymDef = SymDef(
    tristate: bool,
    prompts: seq<Expr>,
    defaults: seq<(Expr, Expr)>,
    revDep: Expr, weakRevDep: Expr, directDep: Expr)

  /** `modules` is the MODULES symbol, if defined; without modules every tristate acts as a bool. */
  datatype Graph = Graph(syms: seq<SymDef>, modules: Option<Sym>, rank: seq<nat>)

  /** A value, and the symbols that were looked at to find it. */
  datatype Seen = Seen(v: Tri, deps: set<Sym>)

  function Min(a: Tri, b: Tri): Tri { if a < b then a else b }
  function Max(a: Tri, b: Tri): Tri { if a < b then b else a }

  /** The symbols an expression mentions (_make_depend_on). */
  function Mentions(e: Expr): set<Sym> {
    match e
    case Const(_) => {}
    case Ref(s) => {s}
    case And(l, r) => Mentions(l) + Mentions(r)
    case Or(l, r) => Mentions(l) + Mentions(r)
    case Not(x) => Mentions(x)
    case Rel(_, a, b) => OperandMentions(a) + OperandMentions(b)
  }

  function OperandMentions(o: Operand): set<Sym> {
    if o.Of? then {o.s} else {}
  }

  function MentionsAll(es: seq<Expr>): set<Sym> {
    if es == [] then {} else Mentions(es[0]) + MentionsAll(es[1..])
  }

  function DefaultMentions(ds: seq<(Expr, Expr)>): set<Sym> {
    if ds == [] then {} else Mentions(ds[0].0) + Mentions(ds[0].1) + DefaultMentions(ds[1..])
  }

  /** What _build_dep makes a symbol depend on. MODULES is not among it unless mentioned. */
  function DependsOn(d: SymDef): set<Sym> {
    MentionsAll(d.prompts) + DefaultMentions(d.defaults)
    + Mentions(d.revDep) + Mentions(d.weakRevDep) + Mentions(d.directDep)
  }

  /** Everything symbol `s` may look at is a symbol of smaller rank. */
  ghost predicate RankedBelow(g: Graph, s: Sym)
    requires |g.rank| == |g.syms| && s < |g.syms|
  {
    && (forall d | d in DependsOn(g.syms[s]) :: d < |g.syms| && g.rank[d] < g.rank[s])
    && (g.syms[s].tristate && g.modules.Some? ==>
          g.modules.value < |g.syms| && g.rank[g.modules.value] < g.rank[s])
  }

  /** Evaluation is well founded. */
  ghost predicate WellFounded(g: Graph) {
    && |g.rank| == |g.syms|
    && (g.modules.Some? ==> g.modules.value < |g.syms|)
    && forall s {:trigger RankedBelow(g, s)} | 0 <= s < |g.syms| :: RankedBelow(g, s)
  }

  function Compare(op: Relation, a: Tri, b: Tri): Tri {
    var holds := match op
      case Equal => a == b
      case Unequal => a != b
      case Less => a < b
      case LessEqual => a <= b
      case Greater => a > b
      case GreaterEqual => a >= b;
    if holds then 2 else 0
  }

  function At(w: seq<Tri>, s: Sym): Tri { if s < |w| then w[s] else 0 }

  function OperandValue(o: Operand, w: seq<Tri>): Tri
  {
    match o
    case Value(v) => v
    case Of(s) => At(w, s)
  }

  /** expr_value, with its short circuits, when symbol s has value w[s]. */
  function EvalExpr(e: Expr, w: seq<Tri>): (r: Seen)
    ensures r.deps <= Mentions(e)
  {
    match e
    case Const(v) => Seen(v, {})
    case Ref(s) => Seen(At(w, s), {s})
    case And(l, r) =>
      var a := EvalExpr(l, w);
      if a.v == 0 then a
      else
        var b := EvalExpr(r, w);
        Seen(Min(a.v, b.v), a.deps + b.deps)
    case Or(l, r) =>
      var a := EvalExpr(l, w);
      if a.v == 2 then a
      else
        var b := EvalExpr(r, w);
        Seen(Max(a.v, b.v), a.deps + b.deps)
    case Not(x) =>
      var a := EvalExpr(x, w);
      Seen(2 - a.v, a.deps)
    case Rel(op, a, b) =>
      Seen(Compare(op, OperandValue(a, w), OperandValue(b, w)), OperandMentions(a) + OperandMentions(b))
  }

  /** The condition of the first node onwards: the best of the prompt conditions. */
  function EvalPrompts(es: seq<Expr>, w: seq<Tri>): (r: Seen)
    ensures r.deps <= MentionsAll(es)
  {
    if es == [] then Seen(0, {})
    else
      var a := EvalExpr(es[0], w);
      var b := EvalPrompts(es[1..], w);
      Seen(Max(a.v, b.v), a.deps + b.deps)
  }

  /** The first default whose condition holds. */
  function EvalDefaults(ds: seq<(Expr, Expr)>, w: seq<Tri>): (r: Seen)
    ensures r.deps <= DefaultMentions(ds)
  {
    if ds == [] then Seen(0, {})
    else
      var cond := EvalExpr(ds[0].1, w);
      if cond.v != 0 then
        var val := EvalExpr(ds[0].0, w);
        Seen(Min(val.v, cond.v), cond.deps + val.deps)
      else
        var rest := EvalDefaults(ds[1..], w);
        Seen(rest.v, cond.deps + rest.deps)
  }

  function ModulesReads(g: Graph): set<Sym> {
    if g.modules.Some? then {g.modules.value} else {}
  }

  /** Symbol.type is BOOL: a bool, or a tristate while MODULES is n. Reads MODULES for a tristate only. */
  function ActsAsBool(g: Graph, s: Sym, w: seq<Tri>): bool
    requires s < |g.syms|
  {
    !g.syms[s].tristate || g.modules.None? || At(w, g.modules.value) == 0
  }

  function TypeReads(g: Graph, s: Sym): set<Sym>
    requires s < |g.syms|
  {
    if g.syms[s].tristate then ModulesReads(g) else {}
  }

  /** _visibility. */
  ghost function EvalVis(g: Graph, s: Sym, w: seq<Tri>): Seen
    requires s < |g.syms|
  {
    var p := EvalPrompts(g.syms[s].prompts, w);
    if p.v == 1 then Seen(if ActsAsBool(g, s, w) then 2 else 1, p.deps + TypeReads(g, s)) else p
  }

  /** The value from defaults and implies, for a symbol without an effective user value. */
  ghost function EvalFallback(d: SymDef, w: seq<Tri>): Seen
  {
    var a := EvalDefaults(d.defaults, w);
    var k := EvalExpr(d.weakRevDep, w);
    if k.v == 0 then Seen(a.v, a.deps + k.deps)
    else
      var c := EvalExpr(d.directDep, w);
      Seen(if c.v != 0 then Max(k.v, a.v) else a.v, a.deps + k.deps + c.deps)
  }

  /** The value before select and promotion are looked at. */
  ghost function EvalBase(g: Graph, user: Option<Tri>, s: Sym, w: seq<Tri>): Seen
    requires s < |g.syms|
  {
    var vis := EvalVis(g, s, w);
    if vis.v != 0 && user.Some? then Seen(Min(user.value, vis.v), vis.deps)
    else
      var f := EvalFallback(g.syms[s], w);
      Seen(f.v, vis.deps + f.deps)
  }

  /** Select raises the value to that of the selecting symbols. */
  ghost function EvalSelected(g: Graph, user: Option<Tri>, s: Sym, w: seq<Tri>): Seen
    requires s < |g.syms|
  {
    var base := EvalBase(g, user, s, w);
    var rev := EvalExpr(g.syms[s].revDep, w);
    if rev.v == 0 then Seen(base.v, base.deps + rev.deps)
    else
      var dir := EvalExpr(g.syms[s].directDep, w);
      Seen(Max(rev.v, base.v), base.deps + rev.deps + dir.deps)
  }

  /** Symbol.tri_value computed anew: m is promoted to y for bools and for symbols implied by y. */
  ghost function EvalTri(g: Graph, user: Option<Tri>, s: Sym, w: seq<Tri>): Seen
    requires s < |g.syms|
  {
    var sel := EvalSelected(g, user, s, w);
    if sel.v != 1 then sel
    else if ActsAsBool(g, s, w) then Seen(2, sel.deps + TypeReads(g, s))
    else
      var k := EvalExpr(g.syms[s].weakRevDep, w);
      Seen(if k.v == 2 then 2 else 1, sel.deps + TypeReads(g, s) + k.deps)
  }

  /* What is not read does not matter. */

  ghost predicate Agree(deps: set<Sym>, w: seq<Tri>, w': seq<Tri>) {
    forall s | s in deps :: At(w, s) == At(w', s)
  }

  lemma ExprLocal(e: Expr, w: seq<Tri>, w': seq<Tri>)
    requires Agree(EvalExpr(e, w).deps, w, w')
    ensures EvalExpr(e, w) == EvalExpr(e, w')
  {
    match e
    case And(l, r) =>
      ExprLocal(l, w, w');
      if EvalExpr(l, w).v != 0 {
        ExprLocal(r, w, w');
      }
    case Or(l, r) =>
      ExprLocal(l, w, w');
      if EvalExpr(l, w).v != 2 {
        ExprLocal(r, w, w');
      }
    case Not(x) => ExprLocal(x, w, w');
    case _ =>
  }

  lemma PromptsLocal(es: seq<Expr>, w: seq<Tri>, w': seq<Tri>)
    requires Agree(EvalPrompts(es, w).deps, w, w')
    ensures EvalPrompts(es, w) == EvalPrompts(es, w')
  {
    if es != [] {
      ExprLocal(es[0], w, w');
      PromptsLocal(es[1..], w, w');
    }
  }

  lemma DefaultsLocal(ds: seq<(Expr, Expr)>, w: seq<Tri>, w': seq<Tri>)
    requires Agree(EvalDefaults(ds, w).deps, w, w')
    ensures EvalDefaults(ds, w) == EvalDefaults(ds, w')
  {
    if ds != [] {
      ExprLocal(ds[0].1, w, w');
      if EvalExpr(ds[0].1, w).v != 0 {
        ExprLocal(ds[0].0, w, w');
      } else {
        DefaultsLocal(ds[1..], w, w');
      }
    }
  }

  lemma VisLocal(g: Graph, s: Sym, w: seq<Tri>, w': seq<Tri>)
    requires s < |g.syms|
    requires Agree(EvalVis(g, s, w).deps, w, w')
    ensures EvalVis(g, s, w) == EvalVis(g, s, w')
  {
    PromptsLocal(g.syms[s].prompts, w, w');
  }

  lemma FallbackLocal(d: SymDef, w: seq<Tri>, w': seq<Tri>)
    requires Agree(EvalFallback(d, w).deps, w, w')
    ensures EvalFallback(d, w) == EvalFallback(d, w')
  {
    DefaultsLocal(d.defaults, w, w');
    ExprLocal(d.weakRevDep, w, w');
    if EvalExpr(d.weakRevDep, w).v != 0 {
      ExprLocal(d.directDep, w, w');
    }
  }

  lemma BaseLocal(g: Graph, user: Option<Tri>, s: Sym, w: seq<Tri>, w': seq<Tri>)
    requires s < |g.syms|
    requires Agree(EvalBase(g, user, s, w).deps, w, w')
    ensures EvalBase(g, user, s, w) == EvalBase(g, user, s, w')
  {
    VisLocal(g, s, w, w');
    if !(EvalVis(g, s, w).v != 0 && user.Some?) {
      FallbackLocal(g.syms[s], w, w');
    }
  }

  /** The value of a symbol depends on the symbols looked at, and on nothing else. */
  lemma TriLocal(g: Graph, user: Option<Tri>, s: Sym, w: seq<Tri>, w': seq<Tri>)
    requires s < |g.syms|
    requires Agree(EvalTri(g, user, s, w).deps, w, w')
    ensures EvalTri(g, user, s, w) == EvalTri(g, user, s, w')
  {
    BaseLocal(g, user, s, w, w');
    ExprLocal(g.syms[s].revDep, w, w');
    if EvalExpr(g.syms[s].revDep, w).v != 0 {
      ExprLocal(g.syms[s].directDep, w, w');
    }
    if EvalSelected(g, user, s, w).v == 1 && !ActsAsBool(g, s, w) {
      ExprLocal(g.syms[s].weakRevDep, w, w');
    }
  }

  /** A symbol looks only at what it depends on, and at MODULES if it is a tristate. */
  lemma ReadsKnown(g: Graph, user: Option<Tri>, s: Sym, w: seq<Tri>)
    requires s < |g.syms|
    ensures EvalVis(g, s, w).deps <= DependsOn(g.syms[s]) + TypeReads(g, s)
    ensures EvalTri(g, user, s, w).deps <= DependsOn(g.syms[s]) + TypeReads(g, s)
  {
  }

  /* Evaluation from scratch. */

  type Choices = seq<Option<Tri>>

  function UserOf(user: Choices, s: Sym): Option<Tri> { if s < |user| then user[s] else None }

  /** Every symbol has the value that the values of all symbols give it. */
  ghost predicate IsValuation(g: Graph, user: Choices, w: seq<Tri>) {
    && |w| == |g.syms|
    && forall s | 0 <= s < |g.syms| :: w[s] == EvalTri(g, UserOf(user, s), s, w).v
  }

  /** All symbols evaluated once, given the values `w`. */
  ghost function NextRound(g: Graph, user: Choices, w: seq<Tri>): (r: seq<Tri>)
    ensures |r| == |g.syms|
  {
    seq(|g.syms|, s requires 0 <= s < |g.syms| => EvalTri(g, UserOf(user, s), s, w).v)
  }

  ghost function Above(ranks: seq<nat>): (h: nat)
    ensures forall i | 0 <= i < |ranks| :: ranks[i] < h
  {
    if ranks == [] then 0
    else
      var last := ranks[|ranks| - 1];
      var h := Above(ranks[..|ranks| - 1]);
      if last < h then h else last + 1
  }

  /** What a symbol looks at has a smaller rank. */
  lemma LooksDown(g: Graph, user: Option<Tri>, s: Sym, w: seq<Tri>)
    requires WellFounded(g) && s < |g.syms|
    ensures forall d | d in EvalTri(g, user, s, w).deps :: d < |g.syms| && g.rank[d] < g.rank[s]
    ensures forall d | d in EvalVis(g, s, w).deps :: d < |g.syms| && g.rank[d] < g.rank[s]
  {
    assert RankedBelow(g, s);
    ReadsKnown(g, user, s, w);
  }

  ghost predicate SameBelow(g: Graph, w: seq<Tri>, w': seq<Tri>, r: nat) {
    forall d | 0 <= d < |g.syms| && d < |g.rank| && g.rank[d] < r :: At(w, d) == At(w', d)
  }

  lemma TriFromBelow(g: Graph, user: Option<Tri>, s: Sym, w: seq<Tri>, w': seq<Tri>)
    requires WellFounded(g) && s < |g.syms| && SameBelow(g, w, w', g.rank[s])
    ensures EvalTri(g, user, s, w) == EvalTri(g, user, s, w')
  {
    LooksDown(g, user, s, w);
    TriLocal(g, user, s, w, w');
  }

  lemma RoundSettles(g: Graph, user: Choices, w: seq<Tri>, k: nat)
    requires WellFounded(g) && SameBelow(g, w, NextRound(g, user, w), k)
    ensures SameBelow(g, NextRound(g, user, w), NextRound(g, user, NextRound(g, user, w)), k + 1)
  {
    var w' := NextRound(g, user, w);
    var w'' := NextRound(g, user, w');
    forall s | 0 <= s < |g.syms| && g.rank[s] < k + 1 ensures At(w', s) == At(w'', s) {
      TriFromBelow(g, UserOf(user, s), s, w, w');
    }
  }

  /** After `k` rounds of evaluating all symbols, those of rank below `k` no longer change. */
  lemma {:induction false} RoundsSettle(g: Graph, user: Choices, k: nat) returns (w: seq<Tri>)
    requires WellFounded(g)
    ensures |w| == |g.syms| && SameBelow(g, w, NextRound(g, user, w), k)
  {
    if k == 0 {
      w := seq(|g.syms|, _ => 0);
    } else {
      var v := RoundsSettle(g, user, k - 1);
      RoundSettles(g, user, v, k - 1);
      w := NextRound(g, user, v);
    }
  }

  /** Evaluation from scratch finds a valuation, ... */
  lemma ValuationExists(g: Graph, user: Choices) returns (w: seq<Tri>)
    requires WellFounded(g)
    ensures IsValuation(g, user, w)
  {
    w := RoundsSettle(g, user, Above(g.rank));
    forall s | 0 <= s < |g.syms| ensures w[s] == EvalTri(g, UserOf(user, s), s, w).v {
      assert At(w, s) == At(NextRound(g, user, w), s);
    }
  }

  /** ... and there is no other. */
  lemma {:induction false} ValuationUnique(g: Graph, user: Choices, w: seq<Tri>, w': seq<Tri>, s: Sym)
    requires WellFounded(g) && IsValuation(g, user, w) && IsValuation(g, user, w') && s < |g.syms|
    ensures w[s] == w'[s]
    decreases g.rank[s]
  {
    LooksDown(g, UserOf(user, s), s, w);
    forall d | d in EvalTri(g, UserOf(user, s), s, w).deps ensures At(w, d) == At(w', d) {
      ValuationUnique(g, user, w, w', d);
    }
    TriLocal(g, UserOf(user, s), s, w, w');
  }

  /** The values of all symbols, computed without any cache. */
  ghost function Scratch(g: Graph, user: Choices): (w: seq<Tri>)
    requires WellFounded(g)
    ensures IsValuation(g, user, w)
  {
    assert exists w :: IsValuation(g, user, w) by {
      var w := ValuationExists(g, user);
    }
    var w :| IsValuation(g, user, w);
    w
  }

  lemma PromptlessValue(g: Graph, s: Sym, w: seq<Tri>, u: Option<Tri>, u': Option<Tri>)
    requires s < |g.syms| && g.syms[s].prompts == []
    ensures EvalTri(g, u, s, w) == EvalTri(g, u', s, w)
  {
    assert EvalVis(g, s, w).v == 0;
    assert EvalBase(g, u, s, w) == EvalBase(g, u', s, w);
    assert EvalSelected(g, u, s, w) == EvalSelected(g, u', s, w);
  }

  /** A user value has no effect on a symbol without a prompt. */
  lemma PromptlessIgnoresUser(g: Graph, user: Choices, s: Sym, v: Option<Tri>)
    requires WellFounded(g) && s < |g.syms| == |user| && g.syms[s].prompts == []
    ensures Scratch(g, user[s := v]) == Scratch(g, user)
  {
    var w := Scratch(g, user);
    PromptlessValue(g, s, w, user[s], v);
    assert IsValuation(g, user[s := v], w) by {
      forall t | 0 <= t < |g.syms| ensures w[t] == EvalTri(g, UserOf(user[s := v], t), t, w).v {
        assert t != s ==> UserOf(user[s := v], t) == UserOf(user, t);
      }
    }
    forall t | 0 <= t < |g.syms| ensures Scratch(g, user[s := v])[t] == w[t] {
      ValuationUnique(g, user[s := v], Scratch(g, user[s := v]), w, t);
    }
  }
}

/** The cached values of all symbols, and their invalidation. */
module KconfigCache {
  import opened Sequences
  import opened KconfigValue

  type Cache = seq<Option<Tri>>

  ghost predicate AllSome(c: Cache, deps: set<Sym>) {
    forall d | d in deps :: d < |c| && c[d].Some?
  }

  /**
   Every cached value is the value from scratch, and rests on symbols that are cached too.
   Which symbols those are depends on the values: a short circuit leaves some out.
   */
  ghost predicate Sound(g: Graph, user: Choices, tri: Cache, vis: Cache) {
    && WellFounded(g)
    && |user| == |tri| == |vis| == |g.syms|
    && var w := Scratch(g, user);
    && (forall s | 0 <= s < |vis| :: vis[s].Some? ==>
          vis[s].value == EvalVis(g, s, w).v && AllSome(tri, EvalVis(g, s, w).deps))
    && (forall s | 0 <= s < |tri| :: tri[s].Some? ==>
          vis[s].Some? && tri[s].value == w[s] && AllSome(tri, EvalTri(g, user[s], s, w).deps))
  }

  ghost predicate Dependent(g: Graph, d: Sym, s: Sym) {
    s < |g.syms| && d in DependsOn(g.syms[s])
  }

  /**
   `vis'` is what is left of `vis` when `x` is invalidated: no survivor depends directly on
   anything that went, and if MODULES went, nothing is left.
   */
  ghost predicate Cleared(g: Graph, vis: Cache, vis': Cache, x: Sym) {
    && |vis| == |vis'| && x < |vis|
    && vis'[x].None?
    && (forall s | 0 <= s < |vis| :: vis'[s].Some? ==> vis'[s] == vis[s])
    && (forall d, s | 0 <= d < |vis| && 0 <= s < |vis| ::
          (d == x || vis[d].Some?) && vis'[d].None? && Dependent(g, d, s) ==> vis'[s].None?)
    && (forall m, s | 0 <= m < |vis| && 0 <= s < |vis| ::
          g.modules == Some(m) && (m == x || vis[m].Some?) && vis'[m].None? ==> vis'[s].None?)
  }

  /** As Cleared, while the dependents of `x` itself are still being visited. */
  ghost predicate Clearing(g: Graph, vis: Cache, vis': Cache, x: Sym) {
    && |vis| == |vis'| && x < |vis|
    && vis'[x].None?
    && (forall s | 0 <= s < |vis| :: vis'[s].Some? ==> vis'[s] == vis[s])
    && (forall d, s | 0 <= d < |vis| && 0 <= s < |vis| ::
          d != x && vis[d].Some? && vis'[d].None? && Dependent(g, d, s) ==> vis'[s].None?)
    && (forall m, s | 0 <= m < |vis| && 0 <= s < |vis| ::
          g.modules == Some(m) && vis[m].Some? && vis'[m].None? ==> vis'[s].None?)
  }

  /** Visiting one dependent, with all that depends on it, keeps the search on course. */
  lemma ClearingStep(g: Graph, vis: Cache, vis1: Cache, vis2: Cache, x: Sym, y: Sym)
    requires Clearing(g, vis, vis1, x) && Cleared(g, vis1, vis2, y)
    ensures Clearing(g, vis, vis2, x)
  {
    forall d, s | 0 <= d < |vis| && 0 <= s < |vis| && d != x && vis[d].Some? && vis2[d].None? && Dependent(g, d, s)
      ensures vis2[s].None?
    {
      if vis1[d].None? {
        assert vis1[s].None?;
      }
    }
  }

  /** Values that survive an invalidation of `x` are those of the new configuration. */
  lemma {:induction false} SurvivorKeepsValue(g: Graph, user: Choices, user': Choices, tri: Cache, vis: Cache,
                                              tri': Cache, vis': Cache, x: Sym, s: Sym)
    requires Sound(g, user, tri, vis)
    requires |user'| == |user| && forall t | 0 <= t < |user| && t != x :: user'[t] == user[t]
    requires Cleared(g, vis, vis', x)
    requires |tri'| == |tri| && forall t | 0 <= t < |tri| :: tri'[t] == if vis'[t].Some? then tri[t] else None
    requires s < |tri| && tri'[s].Some?
    ensures Scratch(g, user')[s] == Scratch(g, user)[s]
    ensures EvalTri(g, user[s], s, Scratch(g, user)) == EvalTri(g, user'[s], s, Scratch(g, user'))
    ensures AllSome(tri', EvalTri(g, user[s], s, Scratch(g, user)).deps)
    decreases g.rank[s]
  {
    var w, w' := Scratch(g, user), Scratch(g, user');
    ReadsKnown(g, user[s], s, w);
    LooksDown(g, user[s], s, w);
    forall d | d in EvalTri(g, user[s], s, w).deps
      ensures d < |tri'| && tri'[d].Some? && At(w, d) == At(w', d)
    {
      assert tri[d].Some? && vis[d].Some?;
      assert Dependent(g, d, s) || g.modules == Some(d);
      SurvivorKeepsValue(g, user, user', tri, vis, tri', vis', x, d);
    }
    TriLocal(g, user[s], s, w, w');
  }

  lemma SurvivorKeepsVis(g: Graph, user: Choices, user': Choices, tri: Cache, vis: Cache, tri': Cache, vis': Cache,
                         x: Sym, s: Sym)
    requires Sound(g, user, tri, vis)
    requires |user'| == |user| && forall t | 0 <= t < |user| && t != x :: user'[t] == user[t]
    requires Cleared(g, vis, vis', x)
    requires |tri'| == |tri| && forall t | 0 <= t < |tri| :: tri'[t] == if vis'[t].Some? then tri[t] else None
    requires s < |vis| && vis'[s].Some?
    ensures EvalVis(g, s, Scratch(g, user)) == EvalVis(g, s, Scratch(g, user'))
    ensures AllSome(tri', EvalVis(g, s, Scratch(g, user)).deps)
  {
    var w, w' := Scratch(g, user), Scratch(g, user');
    ReadsKnown(g, user[s], s, w);
    forall d | d in EvalVis(g, s, w).deps
      ensures d < |tri'| && tri'[d].Some? && At(w, d) == At(w', d)
    {
      assert tri[d].Some? && vis[d].Some?;
      assert Dependent(g, d, s) || g.modules == Some(d);
      SurvivorKeepsValue(g, user, user', tri, vis, tri', vis', x, d);
    }
    VisLocal(g, s, w, w');
  }

  /**
   Invalidation is enough: although it stops at symbols without cached values, and although
   short circuits hide some dependencies, what it leaves in the cache is right afterwards.
   */
  lemma InvalidationSuffices(g: Graph, user: Choices, user': Choices, tri: Cache, vis: Cache, tri': Cache,
                             vis': Cache, x: Sym)
    requires Sound(g, user, tri, vis)
    requires |user'| == |user| && forall t | 0 <= t < |user| && t != x :: user'[t] == user[t]
    requires Cleared(g, vis, vis', x)
    requires |tri'| == |tri| && forall t | 0 <= t < |tri| :: tri'[t] == if vis'[t].Some? then tri[t] else None
    ensures Sound(g, user', tri', vis')
  {
    forall s | 0 <= s < |vis'| && vis'[s].Some?
      ensures vis'[s].value == EvalVis(g, s, Scratch(g, user')).v
        && AllSome(tri', EvalVis(g, s, Scratch(g, user')).deps)
    {
      SurvivorKeepsVis(g, user, user', tri, vis, tri', vis', x, s);
    }
    forall s | 0 <= s < |tri'| && tri'[s].Some?
      ensures vis'[s].Some? && tri'[s].value == Scratch(g, user')[s]
      ensures AllSome(tri', EvalTri(g, user'[s], s, Scratch(g, user')).deps)
    {
      SurvivorKeepsValue(g, user, user', tri, vis, tri', vis', x, s);
    }
  }

  /** How many symbols have cached values. */
  ghost function Cached(vis: Cache): nat {
    if vis == [] then 0 else Cached(vis[..|vis| - 1]) + (if vis[|vis| - 1].Some? then 1 else 0)
  }

  lemma CachedShrinks(vis: Cache, vis': Cache)
    requires |vis| == |vis'| && forall s | 0 <= s < |vis| :: vis'[s].Some? ==> vis[s].Some?
    ensures Cached(vis') <= Cached(vis)
  {
    if vis != [] {
      CachedShrinks(vis[..|vis| - 1], vis'[..|vis| - 1]);
    }
  }

  lemma CachedDrops(vis: Cache, vis': Cache, x: Sym)
    requires |vis| == |vis'| && forall s | 0 <= s < |vis| :: vis'[s].Some? ==> vis[s].Some?
    requires x < |vis| && vis[x].Some? && vis'[x].None?
    ensures Cached(vis') < Cached(vis)
  {
    var n := |vis| - 1;
    if x < n {
      CachedDrops(vis[..n], vis'[..n], x);
    } else {
      CachedShrinks(vis[..n], vis'[..n]);
    }
  }

  /** The recursion of an invalidation: whatever is visited next has cached values, and fewer remain. */
  lemma InvalidationEnds(g: Graph, vis: Cache, vis': Cache, x: Sym)
    requires Clearing(g, vis, vis', x)
    ensures Cached(vis') <= Cached(vis) && (vis[x].Some? ==> Cached(vis') < Cached(vis))
  {
    CachedShrinks(vis, vis');
    if vis[x].Some? {
      CachedDrops(vis, vis', x);
    }
  }

  /** The first `i` of the symbols `ds` have no cached values. */
  ghost predicate Gone(vis: Cache, ds: seq<Sym>, i: nat) {
    i <= |ds| && forall j | 0 <= j < i :: ds[j] < |vis| && vis[ds[j]].None?
  }

  lemma StaysGone(g: Graph, vis: Cache, vis': Cache, ds: seq<Sym>, i: nat)
    requires i < |ds| && Gone(vis, ds, i) && Cleared(g, vis, vis', ds[i])
    ensures Gone(vis', ds, i + 1)
  {
    forall j | 0 <= j < i ensures vis'[ds[j]].None? {
      assert vis[ds[j]].None?;
    }
  }

  /** What is left of the values is what is left of the visibilities. */
  ghost predicate Follows(tri0: Cache, tri: Cache, vis: Cache) {
    |tri0| == |tri| == |vis| && forall t | 0 <= t < |tri| :: tri[t] == if vis[t].Some? then tri0[t] else None
  }

  lemma ClearingDone(g: Graph, vis: Cache, vis': Cache, x: Sym, ds: seq<Sym>)
    requires Clearing(g, vis, vis', x) && g.modules != Some(x)
    requires forall s: Sym | Dependent(g, x, s) :: s in ds
    requires Gone(vis', ds, |ds|)
    ensures Cleared(g, vis, vis', x)
  {
  }

  ghost predicate Grown(c: Cache, c': Cache) {
    |c| == |c'| && forall s | 0 <= s < |c| :: c[s].Some? ==> c'[s] == c[s]
  }

  ghost predicate RefsBelow(g: Graph, ss: set<Sym>, r: nat) {
    forall d | d in ss :: d < |g.syms| && d < |g.rank| && g.rank[d] < r
  }

  lemma AddVis(g: Graph, user: Choices, tri: Cache, vis: Cache, s: Sym, v: Tri)
    requires Sound(g, user, tri, vis) && s < |vis|
    requires v == EvalVis(g, s, Scratch(g, user)).v && AllSome(tri, EvalVis(g, s, Scratch(g, user)).deps)
    ensures Sound(g, user, tri, vis[s := Some(v)]) && Grown(vis, vis[s := Some(v)])
  {
  }

  lemma AddTri(g: Graph, user: Choices, tri: Cache, vis: Cache, s: Sym, v: Tri)
    requires Sound(g, user, tri, vis) && s < |vis| && vis[s].Some?
    requires v == EvalTri(g, user[s], s, Scratch(g, user)).v
    requires AllSome(tri, EvalTri(g, user[s], s, Scratch(g, user)).deps)
    ensures Sound(g, user, tri[s := Some(v)], vis) && Grown(tri, tri[s := Some(v)])
  {
    var w := Scratch(g, user);
    assert w[s] == EvalTri(g, UserOf(user, s), s, w).v;
    var t := tri[s := Some(v)];
    assert forall deps | AllSome(tri, deps) :: AllSome(t, deps);
  }

  /** All the expressions of a symbol mention symbols of smaller rank only. */
  lemma ExprsBelow(g: Graph, s: Sym)
    requires WellFounded(g) && s < |g.syms|
    ensures var d, r := g.syms[s], g.rank[s];
            && RefsBelow(g, MentionsAll(d.prompts), r) && RefsBelow(g, DefaultMentions(d.defaults), r)
            && RefsBelow(g, Mentions(d.revDep), r) && RefsBelow(g, Mentions(d.weakRevDep), r)
            && RefsBelow(g, Mentions(d.directDep), r) && RefsBelow(g, TypeReads(g, s), r)
  {
    assert RankedBelow(g, s);
    var d := g.syms[s];
    assert MentionsAll(d.prompts) <= DependsOn(d) && DefaultMentions(d.defaults) <= DependsOn(d);
    assert Mentions(d.revDep) <= DependsOn(d) && Mentions(d.weakRevDep) <= DependsOn(d)
      && Mentions(d.directDep) <= DependsOn(d);
  }

  class Kconfig {
    const g: Graph
    var user: Choices
    var tri: Cache       // Symbol._cached_tri_val
    var vis: Cache       // Symbol._cached_vis

    ghost predicate Shaped()
      reads this
    {
      && |user| == |tri| == |vis| == |g.syms|
      && forall s | 0 <= s < |tri| :: tri[s].Some? ==> vis[s].Some?
    }

    ghost predicate Valid()
      reads this
    {
      Shaped() && Sound(g, user, tri, vis)
    }

    constructor (g: Graph)
      requires WellFounded(g)
      ensures Valid() && this.g == g && user == seq(|g.syms|, _ => None)
    {
      this.g := g;
      user := seq(|g.syms|, _ => None);
      tri := seq(|g.syms|, _ => None);
      vis := seq(|g.syms|, _ => None);
    }

    /** The symbols to look at after `x` (its _dependents), in some order. */
    method Dependents(x: Sym) returns (ds: seq<Sym>)
      ensures forall i | 0 <= i < |ds| :: Dependent(g, x, ds[i])
      ensures forall s: Sym | Dependent(g, x, s) :: s in ds
    {
      ds := [];
      for s := 0 to |g.syms|
        invariant forall i | 0 <= i < |ds| :: Dependent(g, x, ds[i])
        invariant forall t: Sym | t < s && Dependent(g, x, t) :: t in ds
      {
        if x in DependsOn(g.syms[s]) {
          ds := ds + [s];
        }
      }
    }

    method Invalidate(x: Sym)
      requires Shaped() && x < |vis|
      modifies `tri, `vis
      ensures Shaped() && tri == old(tri)[x := None] && vis == old(vis)[x := None]
    {
      tri, vis := tri[x := None], vis[x := None];
    }

    method InvalidateAll()
      requires Shaped()
      modifies `tri, `vis
      ensures Shaped() && forall s | 0 <= s < |vis| :: vis[s].None? && tri[s].None?
    {
      for i := 0 to |g.syms|
        invariant Shaped() && forall s | 0 <= s < i :: vis[s].None? && tri[s].None?
      {
        Invalidate(i);
      }
    }

    /** Symbol._rec_invalidate. It ends whatever the dependents look like: cycles included. */
    method RecInvalidate(x: Sym)
      requires Shaped() && x < |vis|
      modifies `tri, `vis
      ensures Shaped() && Cleared(g, old(vis), vis, x) && Follows(old(tri), tri, vis)
      decreases Cached(vis), if vis[x].Some? then 0 else 1, 0
    {
      if g.modules == Some(x) {
        InvalidateAll();
        return;
      }
      Invalidate(x);
      var ds := Dependents(x);
      assert forall j | 0 <= j < |ds| :: Dependent(g, x, ds[j]) && ds[j] < |vis|;
      for i := 0 to |ds|
        invariant Shaped() && Clearing(g, old(vis), vis, x) && Follows(old(tri), tri, vis)
        invariant Gone(vis, ds, i)
      {
        InvalidationEnds(g, old(vis), vis, x);
        Visit(ds, i, x, old(vis), old(tri));
      }
      ClearingDone(g, old(vis), vis, x, ds);
    }

    /** One turn of that loop: stop at a dependent without cached values, go on at any other. */
    method Visit(ds: seq<Sym>, i: nat, ghost x: Sym, ghost vis0: Cache, ghost tri0: Cache)
      requires Shaped() && i < |ds| && ds[i] < |vis|
      requires Clearing(g, vis0, vis, x) && Follows(tri0, tri, vis) && Gone(vis, ds, i)
      modifies `tri, `vis
      ensures Shaped() && Clearing(g, vis0, vis, x) && Follows(tri0, tri, vis) && Gone(vis, ds, i + 1)
      decreases Cached(vis), 0, 1
    {
      if vis[ds[i]].Some? {
        ghost var before := vis;
        RecInvalidate(ds[i]);
        ClearingStep(g, vis0, before, vis, x, ds[i]);
        StaysGone(g, before, vis, ds, i);
      }
    }

    /** Reading only adds to the cache, and what it adds is right. */
    twostate predicate Read(deps: set<Sym>)
      reads this
    {
      && user == old(user) && Valid() && Grown(old(tri), tri) && Grown(old(vis), vis) && AllSome(tri, deps)
    }

    ghost function W(): (w: seq<Tri>)
      requires WellFounded(g)
      reads this
      ensures IsValuation(g, user, w)
    {
      Scratch(g, user)
    }

    method OperandValue(o: Operand, ghost r: nat) returns (v: Tri)
      requires Valid() && RefsBelow(g, OperandMentions(o), r)
      modifies `tri, `vis
      ensures Valid() && Read(OperandMentions(o)) && v == KconfigValue.OperandValue(o, W())
      decreases r, 0
    {
      match o
      case Value(c) => v := c;
      case Of(s) => v := TriValue(s);
    }

    /** expr_value. */
    method ExprValue(e: Expr, ghost r: nat) returns (v: Tri)
      requires Valid() && RefsBelow(g, Mentions(e), r)
      modifies `tri, `vis
      ensures Valid() && Read(EvalExpr(e, W()).deps) && v == EvalExpr(e, W()).v
      decreases r, 1, e
    {
      match e
      case Const(c) =>
        v := c;
      case Ref(s) =>
        v := TriValue(s);
      case And(l, x) =>
        v := ExprValue(l, r);
        if v != 0 {
          var v2 := ExprValue(x, r);
          v := Min(v, v2);
        }
      case Or(l, x) =>
        v := ExprValue(l, r);
        if v != 2 {
          var v2 := ExprValue(x, r);
          v := Max(v, v2);
        }
      case Not(x) =>
        v := ExprValue(x, r);
        v := 2 - v;
      case Rel(op, a, b) =>
        var va := OperandValue(a, r);
        var vb := OperandValue(b, r);
        v := Compare(op, va, vb);
    }

    /** The loop over the prompts in _visibility. */
    method PromptValue(es: seq<Expr>, ghost r: nat) returns (v: Tri)
      requires Valid() && RefsBelow(g, MentionsAll(es), r)
      modifies `tri, `vis
      ensures Valid() && Read(EvalPrompts(es, W()).deps) && v == EvalPrompts(es, W()).v
      decreases r, 2
    {
      v := 0;
      ghost var seen := {};
      for i := 0 to |es|
        invariant Read(seen) && RefsBelow(g, MentionsAll(es[i..]), r)
        invariant seen + EvalPrompts(es[i..], W()).deps == EvalPrompts(es, W()).deps
        invariant Max(v, EvalPrompts(es[i..], W()).v) == EvalPrompts(es, W()).v
      {
        assert es[i..][0] == es[i] && es[i..][1..] == es[i + 1..];
        var p := ExprValue(es[i], r);
        seen := seen + EvalExpr(es[i], W()).deps;
        v := Max(v, p);
      }
    }

    /** The search for a default in Symbol.tri_value. */
    method DefaultValue(ds: seq<(Expr, Expr)>, ghost r: nat) returns (v: Tri)
      requires Valid() && RefsBelow(g, DefaultMentions(ds), r)
      modifies `tri, `vis
      ensures Valid() && Read(EvalDefaults(ds, W()).deps) && v == EvalDefaults(ds, W()).v
      decreases r, 2
    {
      ghost var seen := {};
      for i := 0 to |ds|
        invariant Read(seen) && RefsBelow(g, DefaultMentions(ds[i..]), r)
        invariant seen + EvalDefaults(ds[i..], W()).deps == EvalDefaults(ds, W()).deps
        invariant EvalDefaults(ds[i..], W()).v == EvalDefaults(ds, W()).v
      {
        assert ds[i..][0] == ds[i] && ds[i..][1..] == ds[i + 1..];
        var cond := ExprValue(ds[i].1, r);
        seen := seen + EvalExpr(ds[i].1, W()).deps;
        if cond != 0 {
          var val := ExprValue(ds[i].0, r);
          return Min(val, cond);
        }
      }
      v := 0;
    }

    /** Symbol.type is BOOL. */
    method TypeIsBool(s: Sym) returns (b: bool)
      requires Valid() && s < |tri|
      modifies `tri, `vis
      ensures Valid() && Read(TypeReads(g, s)) && b == ActsAsBool(g, s, W())
      decreases g.rank[s], 2
    {
      ExprsBelow(g, s);
      if !g.syms[s].tristate || g.modules.None? {
        return true;
      }
      var v := TriValue(g.modules.value);
      b := v == 0;
    }

    /** Symbol.visibility. */
    method Visibility(s: Sym) returns (v: Tri)
      requires Valid() && s < |tri|
      modifies `tri, `vis
      ensures Valid() && Read(EvalVis(g, s, W()).deps) && vis[s] == Some(v) && v == EvalVis(g, s, W()).v
      decreases g.rank[s], 3
    {
      if vis[s].Some? {
        return vis[s].value;
      }
      ExprsBelow(g, s);
      v := PromptValue(g.syms[s].prompts, g.rank[s]);
      if v == 1 {
        var b := TypeIsBool(s);
        v := if b then 2 else 1;
      }
      AddVis(g, user, tri, vis, s, v);
      vis := vis[s := Some(v)];
    }

    /** Defaults and implies, for a symbol without an effective user value. */
    method FallbackValue(s: Sym) returns (v: Tri)
      requires Valid() && s < |tri|
      modifies `tri, `vis
      ensures Valid() && Read(EvalFallback(g.syms[s], W()).deps) && v == EvalFallback(g.syms[s], W()).v
      decreases g.rank[s], 3
    {
      ExprsBelow(g, s);
      v := DefaultValue(g.syms[s].defaults, g.rank[s]);
      var weak := ExprValue(g.syms[s].weakRevDep, g.rank[s]);
      if weak != 0 {
        var dir := ExprValue(g.syms[s].directDep, g.rank[s]);
        if dir != 0 {
          v := Max(weak, v);
        }
      }
    }

    /** The user value as far as it is visible, or the fallback. */
    method BaseValue(s: Sym) returns (v: Tri)
      requires Valid() && s < |tri|
      modifies `tri, `vis
      ensures Valid() && Read(EvalBase(g, user[s], s, W()).deps) && v == EvalBase(g, user[s], s, W()).v
      ensures vis[s].Some?
      decreases g.rank[s], 4
    {
      var seen := Visibility(s);
      if seen != 0 && user[s].Some? {
        v := Min(user[s].value, seen);
      } else {
        v := FallbackValue(s);
      }
    }

    /** Then select. */
    method SelectedValue(s: Sym) returns (v: Tri)
      requires Valid() && s < |tri|
      modifies `tri, `vis
      ensures Valid() && Read(EvalSelected(g, user[s], s, W()).deps) && v == EvalSelected(g, user[s], s, W()).v
      ensures vis[s].Some?
      decreases g.rank[s], 5
    {
      ExprsBelow(g, s);
      v := BaseValue(s);
      var rev := ExprValue(g.syms[s].revDep, g.rank[s]);
      if rev != 0 {
        var dir := ExprValue(g.syms[s].directDep, g.rank[s]);   // looked at for the warning only
        v := Max(rev, v);
      }
    }

    /** Then the promotion of m to y. */
    method PromotedValue(s: Sym) returns (v: Tri)
      requires Valid() && s < |tri|
      modifies `tri, `vis
      ensures Valid() && Read(EvalTri(g, user[s], s, W()).deps) && v == EvalTri(g, user[s], s, W()).v
      ensures vis[s].Some?
      decreases g.rank[s], 6
    {
      v := SelectedValue(s);
      if v == 1 {
        var b := TypeIsBool(s);
        if b {
          v := 2;
        } else {
          ExprsBelow(g, s);
          var weak := ExprValue(g.syms[s].weakRevDep, g.rank[s]);
          v := if weak == 2 then 2 else 1;
        }
      }
    }

    /** Symbol.tri_value: whatever was set, unset or read before, the value from scratch. */
    method TriValue(s: Sym) returns (v: Tri)
      requires Valid() && s < |tri|
      modifies `tri, `vis
      ensures Valid() && Read({s}) && v == W()[s]
      decreases g.rank[s], 7
    {
      if tri[s].Some? {
        return tri[s].value;
      }
      v := PromotedValue(s);
      AddTri(g, user, tri, vis, s, v);
      tri := tri[s := Some(v)];
    }

    method RecInvalidateIfHasPrompt(s: Sym, ghost before: Choices)
      requires Shaped() && s < |tri| && |before| == |user|
      requires Sound(g, before, tri, vis)
      requires forall t | 0 <= t < |user| && t != s :: user[t] == before[t]
      modifies `tri, `vis
      ensures Valid()
    {
      if g.syms[s].prompts != [] {
        ghost var tri0, vis0 := tri, vis;
        RecInvalidate(s);
        InvalidationSuffices(g, before, user, tri0, vis0, tri, vis, s);
      } else {
        PromptlessIgnoresUser(g, before, s, user[s]);
        assert user == before[s := user[s]];
      }
    }

    /** Symbol.set_value: a value of the wrong type is refused. */
    method SetValue(s: Sym, value: int) returns (ok: bool)
      requires Valid() && s < |tri|
      modifies this
      ensures Valid()
      ensures ok == (0 <= value <= 2 && (value == 1 ==> g.syms[s].tristate || old(user)[s] == Some(1)))
      ensures user == if ok then old(user)[s := Some(value)] else old(user)
    {
      if 0 <= value <= 2 && user[s] == Some(value) {
        return true;
      }
      if !(if g.syms[s].tristate then 0 <= value <= 2 else value == 0 || value == 2) {
        return false;
      }
      ghost var before := user;
      user := user[s := Some(value)];
      RecInvalidateIfHasPrompt(s, before);
      ok := true;
    }

    /** Symbol.unset_value. */
    method UnsetValue(s: Sym)
      requires Valid() && s < |tri|
      modifies this
      ensures Valid() && user == old(user)[s := None]
    {
      if user[s].Some? {
        ghost var before := user;
        user := user[s := None];
        RecInvalidateIfHasPrompt(s, before);
      }
    }
  }
}
