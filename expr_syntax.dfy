/**
 * The grammar that the parse_* functions of src/expr.c recognise, one tree
 * type per parse function, with the tokens each tree is read from and the
 * postfix code each tree is compiled to.  src/expr.c builds no tree: these
 * trees only describe, for the proofs, what a parse function consumed and
 * emitted.  Left recursion in Arith, Term, BoolExpr and BoolTerm is the
 * left-associativity of the while-loops in the source.
 */
module ExprSyntax {
  import opened Common
  import opened ExecDefs
  import opened ExprLexer

  /** parse_expr: the conditional path or the arithmetic path. */
  datatype Expr = CondExpr(c: Cond) | ArithExpr(a: Arith)

  /** parse_cond_expr: a boolean expression, optionally followed by "? yes : no". */
  datatype Cond = Plain(b: BoolExpr) | Choice(test: BoolExpr, yes: Expr, no: Expr)

  /** parse_bool_expr: terms joined by '|'. */
  datatype BoolExpr = BTerm(t: BoolTerm) | BOr(l: BoolExpr, r: BoolTerm)

  /** parse_bool_term: factors joined by '&'. */
  datatype BoolTerm = BFactor(f: BoolFactor) | BAnd(l: BoolTerm, r: BoolFactor)

  /** parse_bool_factor. */
  datatype BoolFactor = BTrue | BFalse | BNot(f: BoolFactor) | BParen(e: Expr) | BRel(r: Rel)

  /** parse_rel_expr: at most one relational operator. */
  datatype Rel = Single(a: Arith) | Compare(l: Arith, op: GenOp, r: Arith)

  /** parse_arithmetic_expr: terms joined by '+' or '-'. */
  datatype Arith = ATerm(t: Term) | ABin(l: Arith, op: GenOp, r: Term)

  /** parse_term: factors joined by '*' or '/'. */
  datatype Term = TFactor(f: Factor) | TBin(l: Term, op: GenOp, r: Factor)

  /** parse_factor; FEmpty is its default case, which consumes and emits nothing. */
  datatype Factor =
    | FNum(v: real) | FName(name: string) | FIndex(v: real) | FStr(s: string)
    | FParen(e: Expr) | FEmpty

  // ---------------------------------------------------------------------
  // Name resolution
  // ---------------------------------------------------------------------

  /** strncmp(variable name, identifier, strlen(identifier)) == 0: the name begins with the identifier. */
  predicate NameMatches(v: Variable, name: string)
  {
    name <= v.name
  }

  /**
   * The variable an identifier resolves to: the first entry before the
   * VAR_END sentinel whose name begins with the identifier; -1 if none.
   */
  function FindVariable(vars: seq<Variable>, name: string, i: nat := 0): (r: int)
    requires HasEnd(vars) && i <= EndIndex(vars)
    ensures r == -1 || i <= r < EndIndex(vars)
    ensures r >= 0 ==> NameMatches(vars[r], name)
    ensures r >= 0 ==> forall j :: i <= j < r ==> !NameMatches(vars[j], name)
    ensures r == -1 <==> forall j :: i <= j < EndIndex(vars) ==> !NameMatches(vars[j], name)
    decreases EndIndex(vars) - i
  {
    if i == EndIndex(vars) then -1
    else if NameMatches(vars[i], name) then i
    else FindVariable(vars, name, i + 1)
  }

  // ---------------------------------------------------------------------
  // The tokens each tree is read from
  // ---------------------------------------------------------------------

  function ExprTokens(e: Expr): seq<Token>
  {
    match e
    case CondExpr(c) => CondTokens(c)
    case ArithExpr(a) => ArithTokens(a)
  }

  function CondTokens(c: Cond): seq<Token>
  {
    match c
    case Plain(b) => BoolExprTokens(b)
    case Choice(b, y, n) => BoolExprTokens(b) + [Sym(Jpz)] + ExprTokens(y) + [Colon] + ExprTokens(n)
  }

  function BoolExprTokens(b: BoolExpr): seq<Token>
  {
    match b
    case BTerm(t) => BoolTermTokens(t)
    case BOr(l, r) => BoolExprTokens(l) + [Sym(Generic(Or))] + BoolTermTokens(r)
  }

  function BoolTermTokens(t: BoolTerm): seq<Token>
  {
    match t
    case BFactor(f) => BoolFactorTokens(f)
    case BAnd(l, r) => BoolTermTokens(l) + [Sym(Generic(And))] + BoolFactorTokens(r)
  }

  function BoolFactorTokens(f: BoolFactor): seq<Token>
  {
    match f
    case BTrue => [True]
    case BFalse => [False]
    case BNot(g) => [Sym(Generic(Not))] + BoolFactorTokens(g)
    case BParen(e) => [LParen] + ExprTokens(e) + [RParen]
    case BRel(r) => RelTokens(r)
  }

  function RelTokens(r: Rel): seq<Token>
  {
    match r
    case Single(a) => ArithTokens(a)
    case Compare(l, op, a) => ArithTokens(l) + [Sym(Generic(op))] + ArithTokens(a)
  }

  function ArithTokens(a: Arith): seq<Token>
  {
    match a
    case ATerm(t) => TermTokens(t)
    case ABin(l, op, r) => ArithTokens(l) + [Sym(Generic(op))] + TermTokens(r)
  }

  function TermTokens(t: Term): seq<Token>
  {
    match t
    case TFactor(f) => FactorTokens(f)
    case TBin(l, op, r) => TermTokens(l) + [Sym(Generic(op))] + FactorTokens(r)
  }

  function FactorTokens(f: Factor): seq<Token>
  {
    match f
    case FNum(v) => [Number(v)]
    case FName(n) => [IdName(n)]
    case FIndex(v) => [VarIndex(v)]
    case FStr(s) => [VarStr(s)]
    case FParen(e) => [LParen] + ExprTokens(e) + [RParen]
    case FEmpty => []
  }

  // ---------------------------------------------------------------------
  // The code each tree is compiled to, when its first instruction lands at index base
  // ---------------------------------------------------------------------

  /** emit(op, 0) for a binary or unary operator. */
  function OpInstr(g: GenOp): Instr
  {
    Instr(Generic(g), Value(0.0))
  }

  function ExprCode(e: Expr, base: nat, vars: seq<Variable>): seq<Instr>
    requires HasEnd(vars)
  {
    match e
    case CondExpr(c) => CondCode(c, base, vars)
    case ArithExpr(a) => ArithCode(a, base, vars)
  }

  /**
   * cond ? yes : no compiles to
   *   cond; JPZ f; yes; JP e; no
   * where f is the index of the first instruction of no and e the index just after no.
   */
  function CondCode(c: Cond, base: nat, vars: seq<Variable>): seq<Instr>
    requires HasEnd(vars)
  {
    match c
    case Plain(b) => BoolExprCode(b, base, vars)
    case Choice(b, y, n) =>
      var cb := BoolExprCode(b, base, vars);
      var jpzAt := base + |cb|;
      var cy := ExprCode(y, jpzAt + 1, vars);
      var jpAt := jpzAt + 1 + |cy|;
      var cn := ExprCode(n, jpAt + 1, vars);
      cb + [Instr(Jpz, Value((jpAt + 1) as real))] + cy
         + [Instr(Jp, Value((jpAt + 1 + |cn|) as real))] + cn
  }

  function BoolExprCode(b: BoolExpr, base: nat, vars: seq<Variable>): seq<Instr>
    requires HasEnd(vars)
  {
    match b
    case BTerm(t) => BoolTermCode(t, base, vars)
    case BOr(l, r) =>
      var cl := BoolExprCode(l, base, vars);
      cl + BoolTermCode(r, base + |cl|, vars) + [OpInstr(Or)]
  }

  function BoolTermCode(t: BoolTerm, base: nat, vars: seq<Variable>): seq<Instr>
    requires HasEnd(vars)
  {
    match t
    case BFactor(f) => BoolFactorCode(f, base, vars)
    case BAnd(l, r) =>
      var cl := BoolTermCode(l, base, vars);
      cl + BoolFactorCode(r, base + |cl|, vars) + [OpInstr(And)]
  }

  function BoolFactorCode(f: BoolFactor, base: nat, vars: seq<Variable>): seq<Instr>
    requires HasEnd(vars)
  {
    match f
    case BTrue => [Instr(PushNum, Value(1.0))]
    case BFalse => [Instr(PushNum, Value(0.0))]
    case BNot(g) => BoolFactorCode(g, base, vars) + [OpInstr(Not)]
    case BParen(e) => ExprCode(e, base, vars)
    case BRel(r) => RelCode(r, base, vars)
  }

  function RelCode(r: Rel, base: nat, vars: seq<Variable>): seq<Instr>
    requires HasEnd(vars)
  {
    match r
    case Single(a) => ArithCode(a, base, vars)
    case Compare(l, op, a) =>
      var cl := ArithCode(l, base, vars);
      cl + ArithCode(a, base + |cl|, vars) + [OpInstr(op)]
  }

  function ArithCode(a: Arith, base: nat, vars: seq<Variable>): seq<Instr>
    requires HasEnd(vars)
  {
    match a
    case ATerm(t) => TermCode(t, base, vars)
    case ABin(l, op, r) =>
      var cl := ArithCode(l, base, vars);
      cl + TermCode(r, base + |cl|, vars) + [OpInstr(op)]
  }

  function TermCode(t: Term, base: nat, vars: seq<Variable>): seq<Instr>
    requires HasEnd(vars)
  {
    match t
    case TFactor(f) => FactorCode(f, base, vars)
    case TBin(l, op, r) =>
      var cl := TermCode(l, base, vars);
      cl + FactorCode(r, base + |cl|, vars) + [OpInstr(op)]
  }

  function FactorCode(f: Factor, base: nat, vars: seq<Variable>): seq<Instr>
    requires HasEnd(vars)
  {
    match f
    case FNum(v) => [Instr(PushNum, Value(v))]
    case FName(n) => [Instr(PushVar, Value(FindVariable(vars, n) as real))]
    case FIndex(v) => [Instr(PushVar, Value(v))]
    case FStr(s) => [Instr(PushStr, Str(s))]
    case FParen(e) => ExprCode(e, base, vars)
    case FEmpty => []
  }

  // ---------------------------------------------------------------------
  // Jumps in compiled code only go forward
  // ---------------------------------------------------------------------

  predicate IsJump(op: Op)
  {
    op == Jp || op == Jpz
  }

  /**
   * Code placed at index base whose every JP/JPZ carries a numeric target
   * strictly after the jump and at most one past the end of the code.
   */
  predicate JumpsForward(c: seq<Instr>, base: nat)
  {
    forall k :: 0 <= k < |c| && IsJump(c[k].op) ==>
      c[k].arg.Value? && base + k < Trunc(c[k].arg.x) <= base + |c|
  }

  lemma JumpsForwardAppend(a: seq<Instr>, b: seq<Instr>, base: nat)
    requires JumpsForward(a, base) && JumpsForward(b, base + |a|)
    ensures JumpsForward(a + b, base)
  {
    forall k | 0 <= k < |a + b| && IsJump((a + b)[k].op)
      ensures (a + b)[k].arg.Value? && base + k < Trunc((a + b)[k].arg.x) <= base + |a + b|
    {
      if k >= |a| {
        assert (a + b)[k] == b[k - |a|];
      }
    }
  }

  lemma JumpsForwardPrepend(x: Instr, c: seq<Instr>, base: nat)
    requires JumpsForward(c, base + 1)
    requires IsJump(x.op) ==> x.arg.Value? && base < Trunc(x.arg.x) <= base + 1 + |c|
    ensures JumpsForward([x] + c, base)
  {
    forall k | 0 <= k < |[x] + c| && IsJump(([x] + c)[k].op)
      ensures ([x] + c)[k].arg.Value? && base + k < Trunc(([x] + c)[k].arg.x) <= base + 1 + |c|
    {
      if k >= 1 {
        assert ([x] + c)[k] == c[k - 1];
      }
    }
  }

  /** The only jumps the compiler emits are the two of a conditional, and both go forward. */
  lemma {:induction false} ExprJumpsForward(e: Expr, base: nat, vars: seq<Variable>)
    requires HasEnd(vars)
    ensures JumpsForward(ExprCode(e, base, vars), base)
    decreases e, 1
  {
    match e
    case CondExpr(c) => CondJumpsForward(c, base, vars);
    case ArithExpr(a) => ArithJumpsForward(a, base, vars);
  }

  lemma {:induction false} CondJumpsForward(c: Cond, base: nat, vars: seq<Variable>)
    requires HasEnd(vars)
    ensures JumpsForward(CondCode(c, base, vars), base)
    decreases c, 0
  {
    match c
    case Plain(b) => BoolExprJumpsForward(b, base, vars);
    case Choice(b, y, n) =>
      var cb := BoolExprCode(b, base, vars);
      var jpzAt := base + |cb|;
      var cy := ExprCode(y, jpzAt + 1, vars);
      var jpAt := jpzAt + 1 + |cy|;
      BoolExprJumpsForward(b, base, vars);
      ExprJumpsForward(y, jpzAt + 1, vars);
      ExprJumpsForward(n, jpAt + 1, vars);
      var cn := ExprCode(n, jpAt + 1, vars);
      ChoiceLayoutJumpsForward(cb, cy, cn, base);
      assert CondCode(c, base, vars) == cb + [Instr(Jpz, Value((jpAt + 1) as real))] + cy
                                        + [Instr(Jp, Value((jpAt + 1 + |cn|) as real))] + cn;
  }

  /** The layout of a conditional keeps jumps forward when its three parts do. */
  lemma ChoiceLayoutJumpsForward(cb: seq<Instr>, cy: seq<Instr>, cn: seq<Instr>, base: nat)
    requires JumpsForward(cb, base)
    requires JumpsForward(cy, base + |cb| + 1)
    requires JumpsForward(cn, base + |cb| + 1 + |cy| + 1)
    ensures var jpAt := base + |cb| + 1 + |cy|;
      JumpsForward(cb + [Instr(Jpz, Value((jpAt + 1) as real))] + cy
                     + [Instr(Jp, Value((jpAt + 1 + |cn|) as real))] + cn, base)
  {
    var jpzAt := base + |cb|;
    var jpAt := jpzAt + 1 + |cy|;
    var jpz := [Instr(Jpz, Value((jpAt + 1) as real))];
    var jp := [Instr(Jp, Value((jpAt + 1 + |cn|) as real))];
    assert Trunc((jpAt + 1) as real) == jpAt + 1;
    assert Trunc((jpAt + 1 + |cn|) as real) == jpAt + 1 + |cn|;
    JumpsForwardPrepend(jp[0], cn, jpAt);
    JumpsForwardAppend(cy, jp + cn, jpzAt + 1);
    JumpsForwardPrepend(jpz[0], cy + (jp + cn), jpzAt);
    JumpsForwardAppend(cb, jpz + (cy + (jp + cn)), base);
    assert cb + jpz + cy + jp + cn == cb + (jpz + (cy + (jp + cn)));
  }

  lemma {:induction false} BoolExprJumpsForward(b: BoolExpr, base: nat, vars: seq<Variable>)
    requires HasEnd(vars)
    ensures JumpsForward(BoolExprCode(b, base, vars), base)
    decreases b
  {
    match b
    case BTerm(t) => BoolTermJumpsForward(t, base, vars);
    case BOr(l, r) =>
      var cl := BoolExprCode(l, base, vars);
      var cr := BoolTermCode(r, base + |cl|, vars);
      BoolExprJumpsForward(l, base, vars);
      BoolTermJumpsForward(r, base + |cl|, vars);
      JumpsForwardAppend(cl, cr, base);
      JumpsForwardAppend(cl + cr, [OpInstr(Or)], base);
  }

  lemma {:induction false} BoolTermJumpsForward(t: BoolTerm, base: nat, vars: seq<Variable>)
    requires HasEnd(vars)
    ensures JumpsForward(BoolTermCode(t, base, vars), base)
    decreases t
  {
    match t
    case BFactor(f) => BoolFactorJumpsForward(f, base, vars);
    case BAnd(l, r) =>
      var cl := BoolTermCode(l, base, vars);
      var cr := BoolFactorCode(r, base + |cl|, vars);
      BoolTermJumpsForward(l, base, vars);
      BoolFactorJumpsForward(r, base + |cl|, vars);
      JumpsForwardAppend(cl, cr, base);
      JumpsForwardAppend(cl + cr, [OpInstr(And)], base);
  }

  lemma {:induction false} BoolFactorJumpsForward(f: BoolFactor, base: nat, vars: seq<Variable>)
    requires HasEnd(vars)
    ensures JumpsForward(BoolFactorCode(f, base, vars), base)
    decreases f
  {
    match f
    case BTrue =>
    case BFalse =>
    case BNot(g) =>
      BoolFactorJumpsForward(g, base, vars);
      JumpsForwardAppend(BoolFactorCode(g, base, vars), [OpInstr(Not)], base);
    case BParen(e) => ExprJumpsForward(e, base, vars);
    case BRel(r) => RelJumpsForward(r, base, vars);
  }

  lemma {:induction false} RelJumpsForward(r: Rel, base: nat, vars: seq<Variable>)
    requires HasEnd(vars)
    ensures JumpsForward(RelCode(r, base, vars), base)
    decreases r
  {
    match r
    case Single(a) => ArithJumpsForward(a, base, vars);
    case Compare(l, op, a) =>
      var cl := ArithCode(l, base, vars);
      var cr := ArithCode(a, base + |cl|, vars);
      ArithJumpsForward(l, base, vars);
      ArithJumpsForward(a, base + |cl|, vars);
      JumpsForwardAppend(cl, cr, base);
      JumpsForwardAppend(cl + cr, [OpInstr(op)], base);
  }

  lemma {:induction false} ArithJumpsForward(a: Arith, base: nat, vars: seq<Variable>)
    requires HasEnd(vars)
    ensures JumpsForward(ArithCode(a, base, vars), base)
    decreases a
  {
    match a
    case ATerm(t) => TermJumpsForward(t, base, vars);
    case ABin(l, op, r) =>
      var cl := ArithCode(l, base, vars);
      var cr := TermCode(r, base + |cl|, vars);
      ArithJumpsForward(l, base, vars);
      TermJumpsForward(r, base + |cl|, vars);
      JumpsForwardAppend(cl, cr, base);
      JumpsForwardAppend(cl + cr, [OpInstr(op)], base);
  }

  lemma {:induction false} TermJumpsForward(t: Term, base: nat, vars: seq<Variable>)
    requires HasEnd(vars)
    ensures JumpsForward(TermCode(t, base, vars), base)
    decreases t
  {
    match t
    case TFactor(f) => FactorJumpsForward(f, base, vars);
    case TBin(l, op, r) =>
      var cl := TermCode(l, base, vars);
      var cr := FactorCode(r, base + |cl|, vars);
      TermJumpsForward(l, base, vars);
      FactorJumpsForward(r, base + |cl|, vars);
      JumpsForwardAppend(cl, cr, base);
      JumpsForwardAppend(cl + cr, [OpInstr(op)], base);
  }

  lemma {:induction false} FactorJumpsForward(f: Factor, base: nat, vars: seq<Variable>)
    requires HasEnd(vars)
    ensures JumpsForward(FactorCode(f, base, vars), base)
    decreases f
  {
    match f
    case FParen(e) => ExprJumpsForward(e, base, vars);
    case _ =>
  }
}
