/**
 Parsing and printing of Kconfig expressions (_parse_expr, expr_str, _make_and and
 _make_or in tools/kconfiglib.py), on tokens.
 */
module ExprSyntax {
  import opened Sequences
  import opened KconfigValue

  datatype Token =
    | SymTok(o: Operand)
    | AndTok | OrTok | NotTok | OpenTok | CloseTok
    | RelTok(op: Relation)
    | OtherTok                    // whatever else may follow an expression

  datatype Parsed = Parsed(e: Expr, next: nat)

  function Leaf(o: Operand): Expr {
    match o
    case Value(v) => Const(v)
    case Of(s) => Ref(s)
  }

  predicate NextIs(ts: seq<Token>, i: nat, t: Token) { i < |ts| && ts[i] == t }

  /** _parse_expr from token `i` on; None is a parse error. */
  function ParseExpr(ts: seq<Token>, i: nat): (r: Option<Parsed>)
    ensures r.Some? ==> i < r.value.next <= |ts|
    decreases if i < |ts| then |ts| - i else 0, 2
  {
    var l := ParseAnd(ts, i);
    if l.None? || !NextIs(ts, l.value.next, OrTok) then l
    else
      var r := ParseExpr(ts, l.value.next + 1);
      if r.None? then None else Some(Parsed(Or(l.value.e, r.value.e), r.value.next))
  }

  /** _parse_and_expr. */
  function ParseAnd(ts: seq<Token>, i: nat): (r: Option<Parsed>)
    ensures r.Some? ==> i < r.value.next <= |ts|
    decreases if i < |ts| then |ts| - i else 0, 1
  {
    var l := ParseFactor(ts, i);
    if l.None? || !NextIs(ts, l.value.next, AndTok) then l
    else
      var r := ParseAnd(ts, l.value.next + 1);
      if r.None? then None else Some(Parsed(And(l.value.e, r.value.e), r.value.next))
  }

  /** _parse_factor. */
  function ParseFactor(ts: seq<Token>, i: nat): (r: Option<Parsed>)
    ensures r.Some? ==> i < r.value.next <= |ts|
    decreases if i < |ts| then |ts| - i else 0, 0
  {
    if i >= |ts| then None
    else match ts[i]
      case SymTok(a) =>
        if i + 1 < |ts| && ts[i + 1].RelTok? then
          if i + 2 < |ts| && ts[i + 2].SymTok? then Some(Parsed(Rel(ts[i + 1].op, a, ts[i + 2].o), i + 3)) else None
        else Some(Parsed(Leaf(a), i + 1))
      case NotTok =>
        var r := ParseFactor(ts, i + 1);
        if r.None? then None else Some(Parsed(Not(r.value.e), r.value.next))
      case OpenTok =>
        var r := ParseExpr(ts, i + 1);
        if r.None? || !NextIs(ts, r.value.next, CloseTok) then None else Some(Parsed(r.value.e, r.value.next + 1))
      case _ => None
  }

  /* The documented grammar, as parse trees. */

  datatype OrTree = OrTree(a: AndTree, more: Option<OrTree>)
  datatype AndTree = AndTree(f: Factor, more: Option<AndTree>)
  datatype Factor = Plain(o: Operand) | Relate(op: Relation, l: Operand, r: Operand) | Negate(f: Factor)
      | Parens(e: OrTree)

  function OrYield(t: OrTree): (ts: seq<Token>)
    ensures |ts| > 0
  {
    AndYield(t.a) + if t.more.Some? then [OrTok] + OrYield(t.more.value) else []
  }

  function AndYield(t: AndTree): (ts: seq<Token>)
    ensures |ts| > 0
  {
    FactorYield(t.f) + if t.more.Some? then [AndTok] + AndYield(t.more.value) else []
  }

  function FactorYield(f: Factor): (ts: seq<Token>)
    ensures |ts| > 0
  {
    match f
    case Plain(o) => [SymTok(o)]
    case Relate(op, l, r) => [SymTok(l), RelTok(op), SymTok(r)]
    case Negate(g) => [NotTok] + FactorYield(g)
    case Parens(e) => [OpenTok] + OrYield(e) + [CloseTok]
  }

  function OrAst(t: OrTree): Expr {
    if t.more.Some? then Or(AndAst(t.a), OrAst(t.more.value)) else AndAst(t.a)
  }

  function AndAst(t: AndTree): Expr {
    if t.more.Some? then And(FactorAst(t.f), AndAst(t.more.value)) else FactorAst(t.f)
  }

  function FactorAst(f: Factor): Expr {
    match f
    case Plain(o) => Leaf(o)
    case Relate(op, l, r) => Rel(op, l, r)
    case Negate(g) => Not(FactorAst(g))
    case Parens(e) => OrAst(e)
  }

  /** `y` stands in `ts` from `i` on. */
  ghost predicate Holds(ts: seq<Token>, i: nat, y: seq<Token>) {
    i + |y| <= |ts| && ts[i..i + |y|] == y
  }

  lemma HoldsSplit(ts: seq<Token>, i: nat, a: seq<Token>, b: seq<Token>)
    ensures Holds(ts, i, a + b) <==> Holds(ts, i, a) && Holds(ts, i + |a|, b)
  {
    if Holds(ts, i, a + b) {
      assert ts[i..i + |a + b|][..|a|] == a && ts[i..i + |a + b|][|a|..] == b;
    }
  }

  lemma HoldsOne(ts: seq<Token>, i: nat, t: Token)
    ensures Holds(ts, i, [t]) <==> NextIs(ts, i, t)
  {
  }

  /** What follows a factor is not the operator of a relation. */
  predicate FactorEnds(ts: seq<Token>, i: nat) { i < |ts| ==> !ts[i].RelTok? }
  predicate AndEnds(ts: seq<Token>, i: nat) { FactorEnds(ts, i) && (i < |ts| ==> !ts[i].AndTok?) }
  predicate OrEnds(ts: seq<Token>, i: nat) { AndEnds(ts, i) && (i < |ts| ==> !ts[i].OrTok?) }

  /** One token between two parts. */
  lemma HoldsJoin(ts: seq<Token>, i: nat, a: seq<Token>, t: Token, b: seq<Token>)
    ensures Holds(ts, i, a + ([t] + b)) <==> Holds(ts, i, a) && NextIs(ts, i + |a|, t) && Holds(ts, i + |a| + 1, b)
  {
    HoldsSplit(ts, i, a, [t] + b);
    HoldsSplit(ts, i + |a|, [t], b);
    HoldsOne(ts, i + |a|, t);
  }

  /** The parser accepts everything the grammar derives, with the syntax tree the grammar gives it. */
  lemma {:induction false} OrComplete(t: OrTree, ts: seq<Token>, i: nat, j: nat)
    requires j == i + |OrYield(t)| && Holds(ts, i, OrYield(t)) && OrEnds(ts, j)
    ensures ParseExpr(ts, i) == Some(Parsed(OrAst(t), j))
    decreases t, 0
  {
    var a := AndYield(t.a);
    if t.more.Some? {
      HoldsJoin(ts, i, a, OrTok, OrYield(t.more.value));
      AndComplete(t.a, ts, i, i + |a|);
      OrComplete(t.more.value, ts, i + |a| + 1, j);
    } else {
      assert OrYield(t) == a;
      AndComplete(t.a, ts, i, j);
    }
  }

  lemma {:induction false} AndComplete(t: AndTree, ts: seq<Token>, i: nat, j: nat)
    requires j == i + |AndYield(t)| && Holds(ts, i, AndYield(t)) && AndEnds(ts, j)
    ensures ParseAnd(ts, i) == Some(Parsed(AndAst(t), j))
    decreases t, 0
  {
    var a := FactorYield(t.f);
    if t.more.Some? {
      HoldsJoin(ts, i, a, AndTok, AndYield(t.more.value));
      FactorComplete(t.f, ts, i, i + |a|);
      AndComplete(t.more.value, ts, i + |a| + 1, j);
    } else {
      assert AndYield(t) == a;
      FactorComplete(t.f, ts, i, j);
    }
  }

  lemma {:induction false} FactorComplete(f: Factor, ts: seq<Token>, i: nat, j: nat)
    requires j == i + |FactorYield(f)| && Holds(ts, i, FactorYield(f)) && FactorEnds(ts, j)
    ensures ParseFactor(ts, i) == Some(Parsed(FactorAst(f), j))
    decreases f, 1
  {
    match f
    case Plain(o) => HoldsOne(ts, i, SymTok(o));
    case Relate(op, l, r) => RelateComplete(op, l, r, ts, i);
    case Negate(g) =>
      HoldsSplit(ts, i, [NotTok], FactorYield(g));
      HoldsOne(ts, i, NotTok);
      FactorComplete(g, ts, i + 1, j);
    case Parens(e) => ParensComplete(e, ts, i, j);
  }

  lemma RelateComplete(op: Relation, l: Operand, r: Operand, ts: seq<Token>, i: nat)
    requires Holds(ts, i, [SymTok(l), RelTok(op), SymTok(r)])
    ensures ParseFactor(ts, i) == Some(Parsed(Rel(op, l, r), i + 3))
  {
    var y := ts[i..i + 3];
    assert ts[i] == y[0] && ts[i + 1] == y[1] && ts[i + 2] == y[2];
  }

  lemma {:induction false} ParensComplete(e: OrTree, ts: seq<Token>, i: nat, j: nat)
    requires j == i + |OrYield(e)| + 2 && Holds(ts, i, [OpenTok] + OrYield(e) + [CloseTok])
    ensures ParseFactor(ts, i) == Some(Parsed(OrAst(e), j))
    decreases e, 1
  {
    var y := OrYield(e);
    HoldsSplit(ts, i, [OpenTok] + y, [CloseTok]);
    HoldsSplit(ts, i, [OpenTok], y);
    HoldsOne(ts, i, OpenTok);
    HoldsOne(ts, i + 1 + |y|, CloseTok);
    OrComplete(e, ts, i + 1, i + 1 + |y|);
  }

  /** The parser accepts nothing else: what it has consumed is derived by the grammar. */
  lemma {:induction false} OrSound(ts: seq<Token>, i: nat) returns (t: OrTree)
    requires ParseExpr(ts, i).Some?
    ensures ParseExpr(ts, i).value == Parsed(OrAst(t), i + |OrYield(t)|) && Holds(ts, i, OrYield(t))
    decreases if i < |ts| then |ts| - i else 0, 2
  {
    var a := AndSound(ts, i);
    var j := i + |AndYield(a)|;
    if NextIs(ts, j, OrTok) {
      var b := OrSound(ts, j + 1);
      t := OrJoined(ts, i, a, b);
    } else {
      t := OrTree(a, None);
      assert OrYield(t) == AndYield(a);
    }
  }

  lemma {:induction false} AndSound(ts: seq<Token>, i: nat) returns (t: AndTree)
    requires ParseAnd(ts, i).Some?
    ensures ParseAnd(ts, i).value == Parsed(AndAst(t), i + |AndYield(t)|) && Holds(ts, i, AndYield(t))
    decreases if i < |ts| then |ts| - i else 0, 1
  {
    var a := FactorSound(ts, i);
    var j := i + |FactorYield(a)|;
    if NextIs(ts, j, AndTok) {
      var b := AndSound(ts, j + 1);
      t := AndJoined(ts, i, a, b);
    } else {
      t := AndTree(a, None);
      assert AndYield(t) == FactorYield(a);
    }
  }

  lemma {:induction false} FactorSound(ts: seq<Token>, i: nat) returns (f: Factor)
    requires ParseFactor(ts, i).Some?
    ensures ParseFactor(ts, i).value == Parsed(FactorAst(f), i + |FactorYield(f)|) && Holds(ts, i, FactorYield(f))
    decreases if i < |ts| then |ts| - i else 0, 0
  {
    match ts[i] {
      case SymTok(a) =>
        if i + 1 < |ts| && ts[i + 1].RelTok? {
          f := Relate(ts[i + 1].op, a, ts[i + 2].o);
        } else {
          f := Plain(a);
        }
      case NotTok =>
        var g := FactorSound(ts, i + 1);
        f := Negate(g);
        HoldsOne(ts, i, NotTok);
        HoldsSplit(ts, i, [NotTok], FactorYield(g));
      case OpenTok =>
        var e := OrSound(ts, i + 1);
        f := Parens(e);
        ParensHold(ts, i, OrYield(e));
    }
  }

  lemma OrJoined(ts: seq<Token>, i: nat, a: AndTree, b: OrTree) returns (t: OrTree)
    requires Holds(ts, i, AndYield(a)) && NextIs(ts, i + |AndYield(a)|, OrTok)
      && Holds(ts, i + |AndYield(a)| + 1, OrYield(b))
    ensures Holds(ts, i, OrYield(t)) && |OrYield(t)| == |AndYield(a)| + 1 + |OrYield(b)|
      && OrAst(t) == Or(AndAst(a), OrAst(b))
  {
    t := OrTree(a, Some(b));
    HoldsJoin(ts, i, AndYield(a), OrTok, OrYield(b));
  }

  lemma AndJoined(ts: seq<Token>, i: nat, a: Factor, b: AndTree) returns (t: AndTree)
    requires Holds(ts, i, FactorYield(a)) && NextIs(ts, i + |FactorYield(a)|, AndTok)
      && Holds(ts, i + |FactorYield(a)| + 1, AndYield(b))
    ensures Holds(ts, i, AndYield(t)) && |AndYield(t)| == |FactorYield(a)| + 1 + |AndYield(b)|
      && AndAst(t) == And(FactorAst(a), AndAst(b))
  {
    t := AndTree(a, Some(b));
    HoldsJoin(ts, i, FactorYield(a), AndTok, AndYield(b));
  }

  lemma ParensHold(ts: seq<Token>, i: nat, y: seq<Token>)
    requires NextIs(ts, i, OpenTok) && Holds(ts, i + 1, y) && NextIs(ts, i + 1 + |y|, CloseTok)
    ensures Holds(ts, i, [OpenTok] + y + [CloseTok])
  {
    HoldsOne(ts, i, OpenTok);
    HoldsOne(ts, i + 1 + |y|, CloseTok);
    HoldsSplit(ts, i, [OpenTok], y);
    HoldsSplit(ts, i, [OpenTok] + y, [CloseTok]);
  }

  /* Printing. */

  /** _parenthesize: parentheses around an expression of the other kind. */
  function Print(e: Expr): (ts: seq<Token>)
    ensures |ts| > 0
  {
    match e
    case Const(v) => [SymTok(Value(v))]
    case Ref(s) => [SymTok(Of(s))]
    case Rel(op, a, b) => [SymTok(a), RelTok(op), SymTok(b)]
    case And(l, r) => Wrapped(Print(l), l.Or?) + ([AndTok] + Wrapped(Print(r), r.Or?))
    case Or(l, r) => Wrapped(Print(l), l.And?) + ([OrTok] + Wrapped(Print(r), r.And?))
    case Not(x) => [NotTok] + Wrapped(Print(x), !(x.Const? || x.Ref?))
  }

  function Wrapped(ts: seq<Token>, parens: bool): seq<Token> {
    if parens then [OpenTok] + ts + [CloseTok] else ts
  }

  /** The right-associated form: A op B op C is A op (B op C). */
  function RightAssoc(e: Expr): Expr {
    match e
    case And(l, r) => AppendAnd(RightAssoc(l), RightAssoc(r))
    case Or(l, r) => AppendOr(RightAssoc(l), RightAssoc(r))
    case Not(x) => Not(RightAssoc(x))
    case _ => e
  }

  function AppendAnd(a: Expr, b: Expr): Expr {
    if a.And? then And(a.l, AppendAnd(a.r, b)) else And(a, b)
  }

  function AppendOr(a: Expr, b: Expr): Expr {
    if a.Or? then Or(a.l, AppendOr(a.r, b)) else Or(a, b)
  }

  /** The grammar's tree for an expression as printed. */
  function OrTreeOf(e: Expr): (t: OrTree)
    decreases e, 2
  {
    if e.Or? then JoinOr(OrTreeOf'(e.l), OrTreeOf'(e.r)) else OrTree(AndTreeOf(e), None)
  }

  function OrTreeOf'(e: Expr): (t: OrTree)
    decreases e, 3
  {
    if e.And? then OrTree(AndTree(Parens(OrTreeOf(e)), None), None) else OrTreeOf(e)
  }

  function AndTreeOf(e: Expr): (t: AndTree)
    requires !e.Or?
    decreases e, 1
  {
    if e.And? then JoinAnd(AndTreeOf'(e.l), AndTreeOf'(e.r)) else AndTree(FactorOf(e), None)
  }

  function AndTreeOf'(e: Expr): (t: AndTree)
    decreases e, 3
  {
    if e.Or? then AndTree(Parens(OrTreeOf(e)), None) else AndTreeOf(e)
  }

  function FactorOf(e: Expr): (f: Factor)
    requires !e.Or? && !e.And?
    decreases e, 0
  {
    match e
    case Const(v) => Plain(Value(v))
    case Ref(s) => Plain(Of(s))
    case Rel(op, a, b) => Relate(op, a, b)
    case Not(x) => Negate(if x.Const? || x.Ref? then FactorOf(x) else Parens(OrTreeOf(x)))
  }

  function JoinOr(a: OrTree, b: OrTree): OrTree {
    OrTree(a.a, if a.more.Some? then Some(JoinOr(a.more.value, b)) else Some(b))
  }

  function JoinAnd(a: AndTree, b: AndTree): AndTree {
    AndTree(a.f, if a.more.Some? then Some(JoinAnd(a.more.value, b)) else Some(b))
  }

  lemma {:induction false} JoinOrIs(a: OrTree, b: OrTree)
    requires OrPlain(a)
    ensures OrYield(JoinOr(a, b)) == OrYield(a) + ([OrTok] + OrYield(b))
    ensures OrAst(JoinOr(a, b)) == AppendOr(OrAst(a), OrAst(b))
  {
    if a.more.Some? {
      JoinOrIs(a.more.value, b);
    }
  }

  /** No operand of the chain is itself an OR, so the chain can be told from its operands. */
  ghost predicate OrPlain(t: OrTree) {
    !AndAst(t.a).Or? && (t.more.Some? ==> OrPlain(t.more.value))
  }

  ghost predicate AndPlain(t: AndTree) {
    !FactorAst(t.f).And? && (t.more.Some? ==> AndPlain(t.more.value))
  }

  lemma {:induction false} JoinAndIs(a: AndTree, b: AndTree)
    requires AndPlain(a)
    ensures AndYield(JoinAnd(a, b)) == AndYield(a) + ([AndTok] + AndYield(b))
    ensures AndAst(JoinAnd(a, b)) == AppendAnd(AndAst(a), AndAst(b))
  {
    if a.more.Some? {
      JoinAndIs(a.more.value, b);
    }
  }

  lemma {:induction false} JoinOrPlain(a: OrTree, b: OrTree)
    requires OrPlain(a) && OrPlain(b)
    ensures OrPlain(JoinOr(a, b))
  {
    if a.more.Some? {
      JoinOrPlain(a.more.value, b);
    }
  }

  lemma {:induction false} JoinAndPlain(a: AndTree, b: AndTree)
    requires AndPlain(a) && AndPlain(b)
    ensures AndPlain(JoinAnd(a, b))
  {
    if a.more.Some? {
      JoinAndPlain(a.more.value, b);
    }
  }

  /** The tree of an expression yields its printed form, and stands for its right-associated form. */
  lemma {:induction false} OrTreeIs(e: Expr)
    ensures OrYield(OrTreeOf(e)) == Print(e) && OrAst(OrTreeOf(e)) == RightAssoc(e) && OrPlain(OrTreeOf(e))
    decreases e, 2
  {
    if e.Or? {
      OrTreeIs'(e.l);
      OrTreeIs'(e.r);
      JoinOrIs(OrTreeOf'(e.l), OrTreeOf'(e.r));
      JoinOrPlain(OrTreeOf'(e.l), OrTreeOf'(e.r));
    } else {
      AndTreeIs(e);
    }
  }

  lemma {:induction false} OrTreeIs'(e: Expr)
    ensures OrYield(OrTreeOf'(e)) == Wrapped(Print(e), e.And?) && OrAst(OrTreeOf'(e)) == RightAssoc(e)
      && OrPlain(OrTreeOf'(e))
    decreases e, 3
  {
    OrTreeIs(e);
    if e.And? {
      var f := Parens(OrTreeOf(e));
      var t := AndTree(f, None);
      assert FactorYield(f) == AndYield(t) == OrYield(OrTree(t, None));
      assert OrAst(OrTree(t, None)) == AndAst(t) == FactorAst(f) == OrAst(OrTreeOf(e));
    }
  }

  lemma {:induction false} AndTreeIs(e: Expr)
    requires !e.Or?
    ensures AndYield(AndTreeOf(e)) == Print(e) && AndAst(AndTreeOf(e)) == RightAssoc(e) && AndPlain(AndTreeOf(e))
    decreases e, 1
  {
    if e.And? {
      AndTreeIs'(e.l);
      AndTreeIs'(e.r);
      JoinAndIs(AndTreeOf'(e.l), AndTreeOf'(e.r));
      JoinAndPlain(AndTreeOf'(e.l), AndTreeOf'(e.r));
    } else {
      FactorIs(e);
      assert AndYield(AndTreeOf(e)) == FactorYield(FactorOf(e));
    }
  }

  lemma {:induction false} AndTreeIs'(e: Expr)
    ensures AndYield(AndTreeOf'(e)) == Wrapped(Print(e), e.Or?) && AndAst(AndTreeOf'(e)) == RightAssoc(e)
      && AndPlain(AndTreeOf'(e))
    decreases e, 3
  {
    if e.Or? {
      OrTreeIs(e);
      var f := Parens(OrTreeOf(e));
      assert FactorYield(f) == AndYield(AndTree(f, None));
    } else {
      AndTreeIs(e);
    }
  }

  lemma {:induction false} FactorIs(e: Expr)
    requires !e.Or? && !e.And?
    ensures FactorYield(FactorOf(e)) == Print(e) && FactorAst(FactorOf(e)) == RightAssoc(e)
    decreases e, 0
  {
    if e.Not? {
      if e.e.Const? || e.e.Ref? {
        FactorIs(e.e);
      } else {
        OrTreeIs(e.e);
      }
    }
  }

  /** Wherever it stands, a printed expression is read back as its right-associated form, to its last token. */
  lemma RoundTrip(e: Expr, ts: seq<Token>, i: nat)
    requires Holds(ts, i, Print(e)) && OrEnds(ts, i + |Print(e)|)
    ensures ParseExpr(ts, i) == Some(Parsed(RightAssoc(e), i + |Print(e)|))
  {
    OrTreeIs(e);
    OrComplete(OrTreeOf(e), ts, i, i + |Print(e)|);
  }

  /** The grammar is unambiguous: a list of tokens has one meaning. */
  lemma Unambiguous(t: OrTree, u: OrTree)
    requires OrYield(t) == OrYield(u)
    ensures OrAst(t) == OrAst(u)
  {
    var ts := OrYield(t);
    OrComplete(t, ts, 0, |ts|);
    OrComplete(u, ts, 0, |ts|);
  }

  lemma {:induction false} AppendAndValue(a: Expr, b: Expr, w: seq<Tri>)
    ensures EvalExpr(AppendAnd(a, b), w).v == Min(EvalExpr(a, w).v, EvalExpr(b, w).v)
  {
    if a.And? {
      AppendAndValue(a.r, b, w);
    }
  }

  lemma {:induction false} AppendOrValue(a: Expr, b: Expr, w: seq<Tri>)
    ensures EvalExpr(AppendOr(a, b), w).v == Max(EvalExpr(a, w).v, EvalExpr(b, w).v)
  {
    if a.Or? {
      AppendOrValue(a.r, b, w);
    }
  }

  /** Right association does not change the value, under any assignment. */
  lemma {:induction false} RightAssocValue(e: Expr, w: seq<Tri>)
    ensures EvalExpr(RightAssoc(e), w).v == EvalExpr(e, w).v
  {
    match e
    case And(l, r) =>
      RightAssocValue(l, w);
      RightAssocValue(r, w);
      AppendAndValue(RightAssoc(l), RightAssoc(r), w);
    case Or(l, r) =>
      RightAssocValue(l, w);
      RightAssocValue(r, w);
      AppendOrValue(RightAssoc(l), RightAssoc(r), w);
    case Not(x) => RightAssocValue(x, w);
    case _ =>
  }

  /** Printing and parsing keep the value of every expression, under every assignment. */
  lemma PrintedValue(e: Expr, w: seq<Tri>)
    ensures ParseExpr(Print(e), 0).Some? && ParseExpr(Print(e), 0).value.next == |Print(e)|
    ensures EvalExpr(ParseExpr(Print(e), 0).value.e, w).v == EvalExpr(e, w).v
  {
    RoundTrip(e, Print(e), 0);
    RightAssocValue(e, w);
  }

  /** _make_and. */
  function MakeAnd(a: Expr, b: Expr): Expr {
    if a == Const(2) then b
    else if b == Const(2) then a
    else if a == Const(0) || b == Const(0) then Const(0)
    else And(a, b)
  }

  /** _make_or. */
  function MakeOr(a: Expr, b: Expr): Expr {
    if a == Const(0) then b
    else if b == Const(0) then a
    else if a == Const(2) || b == Const(2) then Const(2)
    else Or(a, b)
  }

  /** The simplifications keep the value, and look at no symbol the full expression does not look at. */
  lemma MakeAndValue(a: Expr, b: Expr, w: seq<Tri>)
    ensures EvalExpr(MakeAnd(a, b), w).v == EvalExpr(And(a, b), w).v
    ensures EvalExpr(MakeAnd(a, b), w).deps <= EvalExpr(And(a, b), w).deps
  {
  }

  lemma MakeOrValue(a: Expr, b: Expr, w: seq<Tri>)
    ensures EvalExpr(MakeOr(a, b), w).v == EvalExpr(Or(a, b), w).v
    ensures EvalExpr(MakeOr(a, b), w).deps <= EvalExpr(Or(a, b), w).deps
  {
  }

  /** The parser proper: the tokens of a line and the index of the next one. */
  class Parser {
    const tokens: seq<Token>
    var i: nat

    constructor (tokens: seq<Token>, i: nat)
      ensures this.tokens == tokens && this.i == i
    {
      this.tokens, this.i := tokens, i;
    }

    /** _check_token: step over the token if it comes next. */
    method CheckToken(t: Token) returns (found: bool)
      modifies this
      ensures found == NextIs(tokens, old(i), t) && i == if found then old(i) + 1 else old(i)
    {
      found := i < |tokens| && tokens[i] == t;
      if found {
        i := i + 1;
      }
    }

    /** A parse error is None. */
    method Expression() returns (r: Option<Expr>)
      modifies this
      ensures Matches(ParseExpr(tokens, old(i)), r)
      decreases if i < |tokens| then |tokens| - i else 0, 2
    {
      r := AndExpression();
      if r.Some? {
        var more := CheckToken(OrTok);
        if more {
          var rest := Expression();
          r := if rest.None? then None else Some(Or(r.value, rest.value));
        }
      }
    }

    method AndExpression() returns (r: Option<Expr>)
      modifies this
      ensures Matches(ParseAnd(tokens, old(i)), r)
      decreases if i < |tokens| then |tokens| - i else 0, 1
    {
      r := FactorExpression();
      if r.Some? {
        var more := CheckToken(AndTok);
        if more {
          var rest := AndExpression();
          r := if rest.None? then None else Some(And(r.value, rest.value));
        }
      }
    }

    method FactorExpression() returns (r: Option<Expr>)
      modifies this
      ensures Matches(ParseFactor(tokens, old(i)), r)
      decreases if i < |tokens| then |tokens| - i else 0, 0
    {
      if i >= |tokens| {
        return None;
      }
      var token := tokens[i];
      i := i + 1;
      match token {
        case SymTok(a) =>
          if !(i < |tokens| && tokens[i].RelTok?) {
            return Some(Leaf(a));
          }
          var op := tokens[i].op;
          i := i + 1;
          if !(i < |tokens| && tokens[i].SymTok?) {
            return None;
          }
          i := i + 1;
          return Some(Rel(op, a, tokens[i - 1].o));
        case NotTok =>
          r := FactorExpression();
          r := if r.None? then None else Some(Not(r.value));
        case OpenTok =>
          r := Expression();
          if r.Some? {
            var closed := CheckToken(CloseTok);
            if !closed {
              return None;
            }
          }
        case _ => return None;
      }
    }

    ghost predicate Matches(p: Option<Parsed>, r: Option<Expr>)
      reads this
    {
      match p
      case None => r == None
      case Some(q) => r == Some(q.e) && i == q.next
    }
  }
}
