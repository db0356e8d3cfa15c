/**
 What the value of a symbol has to be, by the rules that the Kconfig language promises and
 without an order of evaluation: expressions have the least or greatest of two values, select
 is a lower bound, a user value counts as far as it is visible, the first default whose
 condition holds applies. KconfigValue computes the same with short circuits.
 */
module KconfigRules {
  import opened Sequences
  import opened KconfigValue

  predicate IsLesser(x: int, a: int, b: int) { x <= a && x <= b && (x == a || x == b) }
  predicate IsGreater(x: int, a: int, b: int) { x >= a && x >= b && (x == a || x == b) }

  /** The sign of the difference decides a comparison. */
  predicate Related(op: Relation, diff: int) {
    match op
    case Equal => diff == 0
    case Unequal => diff != 0
    case Less => diff < 0
    case LessEqual => diff <= 0
    case Greater => diff > 0
    case GreaterEqual => diff >= 0
  }

  function OperandWorth(o: Operand, w: seq<Tri>): int {
    match o
    case Value(v) => v
    case Of(s) => if s < |w| then w[s] else 0
  }

  /** `x` is what the expression is worth. */
  ghost predicate Worth(e: Expr, w: seq<Tri>, x: int) {
    match e
    case Const(v) => x == v
    case Ref(s) => x == if s < |w| then w[s] else 0
    case And(l, r) => exists a, b :: Worth(l, w, a) && Worth(r, w, b) && IsLesser(x, a, b)
    case Or(l, r) => exists a, b :: Worth(l, w, a) && Worth(r, w, b) && IsGreater(x, a, b)
    case Not(y) => Worth(y, w, 2 - x)
    case Rel(op, a, b) => x == if Related(op, OperandWorth(a, w) - OperandWorth(b, w)) then 2 else 0
  }

  /** Short circuits change no value, and an expression has one. */
  lemma {:induction false} ExprWorth(e: Expr, w: seq<Tri>, x: int)
    ensures Worth(e, w, x) <==> x == EvalExpr(e, w).v
  {
    match e
    case And(l, r) =>
      forall a ensures Worth(l, w, a) <==> a == EvalExpr(l, w).v {
        ExprWorth(l, w, a);
      }
      forall b ensures Worth(r, w, b) <==> b == EvalExpr(r, w).v {
        ExprWorth(r, w, b);
      }
      assert Worth(l, w, EvalExpr(l, w).v) && Worth(r, w, EvalExpr(r, w).v);
    case Or(l, r) =>
      forall a ensures Worth(l, w, a) <==> a == EvalExpr(l, w).v {
        ExprWorth(l, w, a);
      }
      forall b ensures Worth(r, w, b) <==> b == EvalExpr(r, w).v {
        ExprWorth(r, w, b);
      }
      assert Worth(l, w, EvalExpr(l, w).v) && Worth(r, w, EvalExpr(r, w).v);
    case Not(y) => ExprWorth(y, w, 2 - x);
    case _ =>
  }

  /** `p` is the highest of the prompt conditions, n without prompts. */
  ghost predicate Level(es: seq<Expr>, w: seq<Tri>, p: int) {
    && (forall i | 0 <= i < |es| :: EvalExpr(es[i], w).v <= p)
    && (p == 0 || exists i :: 0 <= i < |es| && EvalExpr(es[i], w).v == p)
  }

  lemma {:induction false} PromptsLevel(es: seq<Expr>, w: seq<Tri>)
    ensures Level(es, w, EvalPrompts(es, w).v)
  {
    if es != [] {
      var rest, p := es[1..], EvalPrompts(es, w).v;
      PromptsLevel(rest, w);
      forall i | 0 <= i < |es| ensures EvalExpr(es[i], w).v <= p {
        assert i > 0 ==> es[i] == rest[i - 1];
      }
      if p != 0 && EvalExpr(es[0], w).v != p {
        var i :| 0 <= i < |rest| && EvalExpr(rest[i], w).v == p;
        assert es[i + 1] == rest[i];
      }
    }
  }

  /** The default at `i` is the first whose condition holds, and `a` its value as far as the condition allows. */
  ghost predicate DefaultAt(ds: seq<(Expr, Expr)>, w: seq<Tri>, i: nat, a: int) {
    && i < |ds| && EvalExpr(ds[i].1, w).v != 0 && IsLesser(a, EvalExpr(ds[i].0, w).v, EvalExpr(ds[i].1, w).v)
    && forall j | 0 <= j < i :: EvalExpr(ds[j].1, w).v == 0
  }

  /** `a` is the default: that of the first whose condition holds, n if there is none. */
  ghost predicate Default(ds: seq<(Expr, Expr)>, w: seq<Tri>, a: int) {
    if forall j | 0 <= j < |ds| :: EvalExpr(ds[j].1, w).v == 0 then a == 0 else exists i: nat :: DefaultAt(ds, w, i, a)
  }

  lemma {:induction false} DefaultsFirst(ds: seq<(Expr, Expr)>, w: seq<Tri>)
    ensures Default(ds, w, EvalDefaults(ds, w).v)
  {
    var a := EvalDefaults(ds, w).v;
    if ds != [] && EvalExpr(ds[0].1, w).v != 0 {
      assert DefaultAt(ds, w, 0, a);
    } else if ds != [] {
      var rest := ds[1..];
      DefaultsFirst(rest, w);
      assert forall j | 0 <= j < |rest| :: rest[j] == ds[j + 1];
      if i: nat :| DefaultAt(rest, w, i, a) {
        assert DefaultAt(ds, w, i + 1, a);
      }
    }
  }

  lemma LevelUnique(es: seq<Expr>, w: seq<Tri>, p: int, q: int)
    requires Level(es, w, p) && Level(es, w, q) && p >= 0 && q >= 0
    ensures p == q
  {
  }

  lemma DefaultUnique(ds: seq<(Expr, Expr)>, w: seq<Tri>, a: int, b: int)
    requires Default(ds, w, a) && Default(ds, w, b)
    ensures a == b
  {
    if i: nat :| DefaultAt(ds, w, i, a) {
      if j: nat :| DefaultAt(ds, w, j, b) {
        assert i == j;
      }
    }
  }

  /** A bool, or a tristate without modules. */
  predicate CannotBeM(g: Graph, s: Sym, w: seq<Tri>)
    requires s < |g.syms|
  {
    g.syms[s].tristate ==> g.modules == None || OperandWorth(Of(g.modules.value), w) == 0
  }

  /** `p` is the visibility: m counts as y for a symbol that acts as a bool. */
  ghost predicate Visible(g: Graph, s: Sym, w: seq<Tri>, p: int)
    requires s < |g.syms|
  {
    exists q :: 0 <= q <= 2 && Level(g.syms[s].prompts, w, q) && p == if q == 1 && CannotBeM(g, s, w) then 2 else q
  }

  lemma VisibleIs(g: Graph, s: Sym, w: seq<Tri>, p: int)
    requires s < |g.syms|
    ensures Visible(g, s, w, p) <==> p == EvalVis(g, s, w).v
  {
    var q := EvalPrompts(g.syms[s].prompts, w).v;
    PromptsLevel(g.syms[s].prompts, w);
    forall r | 0 <= r <= 2 && Level(g.syms[s].prompts, w, r) ensures r == q {
      LevelUnique(g.syms[s].prompts, w, q, r);
    }
  }

  /** `x` is what the symbol would be without select: user value, or default and imply. */
  ghost predicate Unselected(g: Graph, user: Option<Tri>, s: Sym, w: seq<Tri>, x: int)
    requires s < |g.syms|
  {
    var d := g.syms[s];
    var p, k, c := EvalVis(g, s, w).v, EvalExpr(d.weakRevDep, w).v, EvalExpr(d.directDep, w).v;
    if p > 0 && user.Some? then IsLesser(x, user.value, p)
    else if k > 0 && c > 0 then exists a :: Default(d.defaults, w, a) && IsGreater(x, k, a)
    else Default(d.defaults, w, x)
  }

  /** The value `v` follows the rules: at least what select demands, and m turned into y where m cannot be. */
  ghost predicate Ruled(g: Graph, user: Option<Tri>, s: Sym, w: seq<Tri>, v: int)
    requires s < |g.syms|
  {
    exists x, y :: Unselected(g, user, s, w, x) && Chosen(g, s, w, x, y, v)
  }

  ghost predicate Chosen(g: Graph, s: Sym, w: seq<Tri>, x: int, y: int, v: int)
    requires s < |g.syms|
  {
    && IsGreater(y, EvalExpr(g.syms[s].revDep, w).v, x)
    && v == if y == 1 && (CannotBeM(g, s, w) || EvalExpr(g.syms[s].weakRevDep, w).v == 2) then 2 else y
  }

  lemma UnselectedIs(g: Graph, user: Option<Tri>, s: Sym, w: seq<Tri>, x: int)
    requires s < |g.syms|
    ensures Unselected(g, user, s, w, x) <==> x == EvalBase(g, user, s, w).v
  {
    var ds := g.syms[s].defaults;
    var a := EvalDefaults(ds, w).v;
    DefaultsFirst(ds, w);
    forall b | Default(ds, w, b) ensures b == a {
      DefaultUnique(ds, w, a, b);
    }
  }

  /** The rules leave exactly one value, which is the one computed. */
  lemma TriRuled(g: Graph, user: Option<Tri>, s: Sym, w: seq<Tri>, v: int)
    requires s < |g.syms|
    ensures Ruled(g, user, s, w, v) <==> v == EvalTri(g, user, s, w).v
  {
    var x, y := EvalBase(g, user, s, w).v, EvalSelected(g, user, s, w).v;
    UnselectedIs(g, user, s, w, x);
    assert Chosen(g, s, w, x, y, EvalTri(g, user, s, w).v);
    forall x' | Unselected(g, user, s, w, x') ensures x' == x {
      UnselectedIs(g, user, s, w, x');
    }
  }

  /** So values are a valuation if and only if every symbol follows the rules. */
  lemma ValuationRuled(g: Graph, user: Choices, w: seq<Tri>)
    ensures IsValuation(g, user, w) <==>
      |w| == |g.syms| && forall s | 0 <= s < |g.syms| :: Ruled(g, UserOf(user, s), s, w, w[s])
  {
    if |w| == |g.syms| {
      forall s | 0 <= s < |g.syms|
        ensures Ruled(g, UserOf(user, s), s, w, w[s]) <==> w[s] == EvalTri(g, UserOf(user, s), s, w).v
      {
        TriRuled(g, UserOf(user, s), s, w, w[s]);
      }
    }
  }

  /* What that means for every valuation, and so for every value that Kconfig.TriValue returns. */

  /** No symbol is below the symbols that select it. */
  lemma SelectIsFloor(g: Graph, user: Choices, w: seq<Tri>, s: Sym)
    requires IsValuation(g, user, w) && s < |g.syms|
    ensures EvalExpr(g.syms[s].revDep, w).v <= w[s]
  {
    ValuationRuled(g, user, w);
  }

  /** A bool is n or y, and so is every tristate while MODULES is n. */
  lemma BoolIsNeverM(g: Graph, user: Choices, w: seq<Tri>, s: Sym)
    requires IsValuation(g, user, w) && s < |g.syms| && CannotBeM(g, s, w)
    ensures w[s] != 1
  {
    ValuationRuled(g, user, w);
  }

  /** A visible symbol that nobody selects has the value the user gave it, as far as it is visible. */
  lemma UserDecides(g: Graph, user: Choices, w: seq<Tri>, s: Sym, p: int)
    requires IsValuation(g, user, w) && s < |g.syms| && EvalExpr(g.syms[s].revDep, w).v == 0
    requires Visible(g, s, w, p) && p > 0 && UserOf(user, s).Some?
    ensures var u := if UserOf(user, s).value < p then UserOf(user, s).value else p;
      w[s] == if u == 1 && (CannotBeM(g, s, w) || EvalExpr(g.syms[s].weakRevDep, w).v == 2) then 2 else u
  {
    ValuationRuled(g, user, w);
    VisibleIs(g, s, w, p);
    assert Ruled(g, UserOf(user, s), s, w, w[s]);
  }

  /** Without either, the first default whose condition holds, raised by an imply if the dependencies are met. */
  lemma DefaultDecides(g: Graph, user: Choices, w: seq<Tri>, s: Sym, a: int)
    requires IsValuation(g, user, w) && s < |g.syms| && EvalExpr(g.syms[s].revDep, w).v == 0
    requires Visible(g, s, w, 0) || UserOf(user, s) == None
    requires Default(g.syms[s].defaults, w, a)
    ensures var k := EvalExpr(g.syms[s].weakRevDep, w).v;
      var x := if k > a && EvalExpr(g.syms[s].directDep, w).v > 0 then k else a;
      w[s] == if x == 1 && (CannotBeM(g, s, w) || k == 2) then 2 else x
  {
    VisibleIs(g, s, w, 0);
    DefaultsFirst(g.syms[s].defaults, w);
    DefaultUnique(g.syms[s].defaults, w, a, EvalDefaults(g.syms[s].defaults, w).v);
  }
}
