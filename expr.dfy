/**
 * The recursive-descent compiler of src/expr.c.  The source keeps its
 * state in globals (the cursor, the current token, the code array and its
 * fill level, the variable table); here they are the fields of a Compiler.
 * Each parse routine is first a function of those globals as one Parser
 * value, proved to append exactly the code of the grammar tree it returns;
 * each parse method computes its function, success or error, and consumes
 * exactly the tokens of that tree.  Every exit(EXIT_FAILURE) is an error.
 */
module Expr {
  import opened Common
  import opened ExecDefs
  import opened ExprLexer
  import opened ExprSyntax

  /** The tokens with which parse_expr takes the conditional path. */
  predicate StartsCond(tok: Token)
  {
    tok == True || tok == False || tok == Sym(Generic(Not)) || tok == LParen
    || tok.IdName? || tok.VarIndex? || tok.Number? || tok.VarStr?
  }

  /** The tokens parse_factor has a case for. */
  predicate StartsFactor(tok: Token)
  {
    tok.Number? || tok.IdName? || tok.VarIndex? || tok.VarStr? || tok == LParen
  }

  /** The tokens parse_bool_factor has a case for; any other goes to parse_rel_expr. */
  predicate StartsBoolFactor(tok: Token)
  {
    tok == True || tok == False || tok == Sym(Generic(Not)) || tok == LParen
  }

  /** The operators parse_rel_expr accepts. */
  predicate IsRelOp(tok: Token)
  {
    tok in {Sym(Generic(Eq)), Sym(Generic(Neq)), Sym(Generic(Lt)),
            Sym(Generic(Gt)), Sym(Generic(Le)), Sym(Generic(Ge))}
  }

  /** The variable lookup loop of parse_factor. */
  method LookupVariable(vars: seq<Variable>, name: string) returns (idx: int)
    requires HasEnd(vars)
    ensures idx == FindVariable(vars, name)
  {
    var i := 0;
    while vars[i].vtype != VarEnd
      invariant 0 <= i <= EndIndex(vars)
      invariant FindVariable(vars, name, i) == FindVariable(vars, name)
      decreases EndIndex(vars) - i
    {
      if name <= vars[i].name {
        return i;
      }
      i := i + 1;
    }
    return -1;
  }

  /** code[at].value = v: the operand of one instruction replaced, its opcode kept. */
  function Patched(c: seq<Instr>, at: nat, v: real): seq<Instr>
    requires at < |c|
  {
    c[at := Instr(c[at].op, Value(v))]
  }

  /*
   * The step lemmas below assemble the code and the tokens of a tree from
   * those of its parts, in the order a parse method appends them: e0 and
   * k0 are what was emitted and consumed before the tree began.
   */

  lemma BoolExprStep(e0: seq<Instr>, k0: seq<Token>, l: BoolExpr, r: BoolTerm, vars: seq<Variable>)
    requires HasEnd(vars)
    ensures var before := e0 + BoolExprCode(l, |e0|, vars);
      before + BoolTermCode(r, |before|, vars) + [OpInstr(Or)] == e0 + BoolExprCode(BOr(l, r), |e0|, vars)
    ensures k0 + BoolExprTokens(l) + [Sym(Generic(Or))] + BoolTermTokens(r) == k0 + BoolExprTokens(BOr(l, r))
  {
    var cl := BoolExprCode(l, |e0|, vars);
    Associative(e0, cl, BoolTermCode(r, |e0| + |cl|, vars));
    Associative(e0, cl + BoolTermCode(r, |e0| + |cl|, vars), [OpInstr(Or)]);
    Associative(k0, BoolExprTokens(l), [Sym(Generic(Or))]);
    Associative(k0, BoolExprTokens(l) + [Sym(Generic(Or))], BoolTermTokens(r));
  }

  lemma BoolTermStep(e0: seq<Instr>, k0: seq<Token>, l: BoolTerm, r: BoolFactor, vars: seq<Variable>)
    requires HasEnd(vars)
    ensures var before := e0 + BoolTermCode(l, |e0|, vars);
      before + BoolFactorCode(r, |before|, vars) + [OpInstr(And)] == e0 + BoolTermCode(BAnd(l, r), |e0|, vars)
    ensures k0 + BoolTermTokens(l) + [Sym(Generic(And))] + BoolFactorTokens(r) == k0 + BoolTermTokens(BAnd(l, r))
  {
    var cl := BoolTermCode(l, |e0|, vars);
    Associative(e0, cl, BoolFactorCode(r, |e0| + |cl|, vars));
    Associative(e0, cl + BoolFactorCode(r, |e0| + |cl|, vars), [OpInstr(And)]);
    Associative(k0, BoolTermTokens(l), [Sym(Generic(And))]);
    Associative(k0, BoolTermTokens(l) + [Sym(Generic(And))], BoolFactorTokens(r));
  }

  lemma ArithStep(e0: seq<Instr>, k0: seq<Token>, l: Arith, op: GenOp, r: Term, vars: seq<Variable>)
    requires HasEnd(vars)
    ensures var before := e0 + ArithCode(l, |e0|, vars);
      before + TermCode(r, |before|, vars) + [OpInstr(op)] == e0 + ArithCode(ABin(l, op, r), |e0|, vars)
    ensures k0 + ArithTokens(l) + [Sym(Generic(op))] + TermTokens(r) == k0 + ArithTokens(ABin(l, op, r))
  {
    var cl := ArithCode(l, |e0|, vars);
    Associative(e0, cl, TermCode(r, |e0| + |cl|, vars));
    Associative(e0, cl + TermCode(r, |e0| + |cl|, vars), [OpInstr(op)]);
    Associative(k0, ArithTokens(l), [Sym(Generic(op))]);
    Associative(k0, ArithTokens(l) + [Sym(Generic(op))], TermTokens(r));
  }

  lemma TermStep(e0: seq<Instr>, k0: seq<Token>, l: Term, op: GenOp, r: Factor, vars: seq<Variable>)
    requires HasEnd(vars)
    ensures var before := e0 + TermCode(l, |e0|, vars);
      before + FactorCode(r, |before|, vars) + [OpInstr(op)] == e0 + TermCode(TBin(l, op, r), |e0|, vars)
    ensures k0 + TermTokens(l) + [Sym(Generic(op))] + FactorTokens(r) == k0 + TermTokens(TBin(l, op, r))
  {
    var cl := TermCode(l, |e0|, vars);
    Associative(e0, cl, FactorCode(r, |e0| + |cl|, vars));
    Associative(e0, cl + FactorCode(r, |e0| + |cl|, vars), [OpInstr(op)]);
    Associative(k0, TermTokens(l), [Sym(Generic(op))]);
    Associative(k0, TermTokens(l) + [Sym(Generic(op))], FactorTokens(r));
  }

  lemma CompareStep(e0: seq<Instr>, k0: seq<Token>, l: Arith, op: GenOp, r: Arith, vars: seq<Variable>)
    requires HasEnd(vars)
    ensures var before := e0 + ArithCode(l, |e0|, vars);
      before + ArithCode(r, |before|, vars) + [OpInstr(op)] == e0 + RelCode(Compare(l, op, r), |e0|, vars)
    ensures k0 + ArithTokens(l) + [Sym(Generic(op))] + ArithTokens(r) == k0 + RelTokens(Compare(l, op, r))
  {
    var cl := ArithCode(l, |e0|, vars);
    Associative(e0, cl, ArithCode(r, |e0| + |cl|, vars));
    Associative(e0, cl + ArithCode(r, |e0| + |cl|, vars), [OpInstr(op)]);
    Associative(k0, ArithTokens(l), [Sym(Generic(op))]);
    Associative(k0, ArithTokens(l) + [Sym(Generic(op))], ArithTokens(r));
  }

  lemma NotStep(e0: seq<Instr>, k0: seq<Token>, f: BoolFactor, vars: seq<Variable>)
    requires HasEnd(vars)
    ensures e0 + BoolFactorCode(f, |e0|, vars) + [OpInstr(Not)] == e0 + BoolFactorCode(BNot(f), |e0|, vars)
    ensures k0 + [Sym(Generic(Not))] + BoolFactorTokens(f) == k0 + BoolFactorTokens(BNot(f))
  {
    assert e0 + BoolFactorCode(f, |e0|, vars) + [OpInstr(Not)] == e0 + (BoolFactorCode(f, |e0|, vars) + [OpInstr(Not)]);
    assert k0 + [Sym(Generic(Not))] + BoolFactorTokens(f) == k0 + ([Sym(Generic(Not))] + BoolFactorTokens(f));
  }

  /**
   * parse_cond_expr's back-patching: once the placeholder JPZ (last of e2)
   * gets the start of the false branch and the placeholder JP (last of e4)
   * gets the end of the code, the code is that of the conditional.
   */
  lemma ChoiceStep(e0: seq<Instr>, b: BoolExpr, yes: Expr, no: Expr, vars: seq<Variable>,
                   falseBranch: nat, falseStart: nat, jumpEnd: nat, end: nat)
    requires HasEnd(vars)
    requires falseBranch == |e0| + |BoolExprCode(b, |e0|, vars)|
    requires jumpEnd == falseBranch + 1 + |ExprCode(yes, falseBranch + 1, vars)|
    requires falseStart == jumpEnd + 1 && end == falseStart + |ExprCode(no, falseStart, vars)|
    ensures var e := e0 + BoolExprCode(b, |e0|, vars) + [Instr(Jpz, Value(0.0))] + ExprCode(yes, falseBranch + 1, vars)
                     + [Instr(Jp, Value(0.0))] + ExprCode(no, falseStart, vars);
      |e| == end && Patched(Patched(e, falseBranch, falseStart as real), jumpEnd, end as real)
                    == e0 + CondCode(Choice(b, yes, no), |e0|, vars)
  {
    var cb, cy, cn := BoolExprCode(b, |e0|, vars), ExprCode(yes, falseBranch + 1, vars), ExprCode(no, falseStart, vars);
    var x, x' := Instr(Jpz, Value(0.0)), Instr(Jpz, Value(falseStart as real));
    var y, y' := Instr(Jp, Value(0.0)), Instr(Jp, Value(end as real));
    var e := e0 + cb + [x] + cy + [y] + cn;
    var p1 := Patched(e, falseBranch, falseStart as real);
    assert p1 == e0 + cb + [x'] + cy + [y] + cn;
    assert Patched(p1, jumpEnd, end as real) == e0 + cb + [x'] + cy + [y'] + cn;
    assert e0 + cb + [x'] + cy + [y'] + cn == e0 + (cb + [x'] + cy + [y'] + cn);
  }

  /** The tokens of a conditional, in the order parse_cond_expr consumes them after k0. */
  lemma ChoiceTokens(k0: seq<Token>, b: BoolExpr, yes: Expr, no: Expr)
    ensures k0 + BoolExprTokens(b) + [Sym(Jpz)] + ExprTokens(yes) + [Colon] + ExprTokens(no)
            == k0 + CondTokens(Choice(b, yes, no))
  {
    var kb, ky, kn := BoolExprTokens(b), ExprTokens(yes), ExprTokens(no);
    assert k0 + kb + [Sym(Jpz)] + ky + [Colon] + kn == k0 + (kb + [Sym(Jpz)] + ky + [Colon] + kn);
  }

  /**
   * ChoiceStep over the snapshots of the code that parse_cond_expr has:
   * before (up to the test b, the JPZ goes at falseBranch), branch (after
   * the placeholder JPZ, the true branch and the placeholder JP at jumpEnd)
   * and after (after the false branch).
   */
  lemma ChoiceLayout(e0: seq<Instr>, b: BoolExpr, yes: Expr, no: Expr, vars: seq<Variable>,
                     before: seq<Instr>, branch: seq<Instr>, after: seq<Instr>, falseBranch: nat, jumpEnd: nat)
    requires HasEnd(vars)
    requires before == e0 + BoolExprCode(b, |e0|, vars) && falseBranch == |before|
    requires branch == before + [Instr(Jpz, Value(0.0))] + ExprCode(yes, falseBranch + 1, vars) + [Instr(Jp, Value(0.0))]
    requires jumpEnd + 1 == |branch|
    requires after == branch + ExprCode(no, |branch|, vars)
    ensures Patched(Patched(after, falseBranch, |branch| as real), jumpEnd, |after| as real)
            == e0 + CondCode(Choice(b, yes, no), |e0|, vars)
  {
    ChoiceStep(e0, b, yes, no, vars, falseBranch, |branch|, jumpEnd, |after|);
  }

  /** The whole program: the expression's code, then HALT; its jumps all go forward. */
  lemma CompiledCode(t: Expr, vars: seq<Variable>, c: seq<Instr>)
    requires HasEnd(vars)
    requires c == [] + ExprCode(t, 0, vars) + [Instr(Halt, Value(0.0))]
    ensures c == ExprCode(t, 0, vars) + [Instr(Halt, Value(0.0))]
    ensures JumpsForward(c, 0)
  {
    assert [] + ExprCode(t, 0, vars) == ExprCode(t, 0, vars);
    ExprJumpsForward(t, 0, vars);
    JumpsForwardAppend(ExprCode(t, 0, vars), [Instr(Halt, Value(0.0))], 0);
  }

  // ---------------------------------------------------------------------
  // The compiler as functions of its state
  // ---------------------------------------------------------------------

  /**
   * The globals of the compiler as one value: the text, the variable
   * table, the op_symbols entry the operator probe starts at, the current
   * token, the cursor and the code emitted so far.
   */
  datatype Parser = Parser(src: string, vars: seq<Variable>, probeStart: nat, token: Token, pos: nat, code: seq<Instr>)

  /** What a parse function returns: the tree it read and the state after it, or the error that stops the compiler. */
  type Parsed<T> = Result<(T, Parser), CompileError>

  predicate Ready(p: Parser)
  {
    && p.pos <= |p.src| && p.probeStart < OpCount && HasEnd(p.vars)
    && (p.token == End ==> p.pos == |p.src|)
    && |p.code| < MaxCodeSize
  }

  /** What is left to read; it shrinks with every token consumed before END. */
  function Rem(p: Parser): nat
    requires p.pos <= |p.src|
  {
    |p.src| - p.pos + (if p.token == End then 0 else 1)
  }

  /** q is a state the compiler can reach from p: same text, table and probe, no more left to read. */
  predicate Continues(p: Parser, q: Parser)
  {
    && Ready(p) && Ready(q)
    && q.src == p.src && q.vars == p.vars && q.probeStart == p.probeStart
    && Rem(q) <= Rem(p)
  }

  /** next_token: the token at the cursor becomes current; a lexical error stops the compiler. */
  function Advance(p: Parser): (r: Result<Parser, CompileError>)
    requires Ready(p)
    ensures r.Ok? ==> Continues(p, r.value) && r.value.code == p.code
    ensures r.Ok? && p.token != End ==> Rem(r.value) < Rem(p)
    ensures r.Ok? <==> Lex(p.src, p.pos, p.probeStart).Ok?
  {
    match Lex(p.src, p.pos, p.probeStart)
    case Err(e) => Err(e)
    case Ok((t, q)) => Ok(p.(token := t, pos := q))
  }

  /** emit with its overflow guard: one more instruction, unless no room would be left below MAX_CODE_SIZE. */
  function Emitted(p: Parser, ins: Instr): (r: Result<Parser, CompileError>)
    requires Ready(p)
    ensures r.Ok? <==> |p.code| + 1 < MaxCodeSize
    ensures r.Ok? ==> Continues(p, r.value) && r.value.code == p.code + [ins] && r.value.token == p.token
    ensures r.Err? ==> r.error == CodeOverflow
  {
    if |p.code| + 1 >= MaxCodeSize then Err(CodeOverflow)
    else Ok(p.(code := p.code + [ins]))
  }

  /** emit(...); next_token(); of the single-token cases. */
  function EmittedThenAdvanced(p: Parser, ins: Instr): (r: Result<Parser, CompileError>)
    requires Ready(p) && p.token != End
    ensures r.Ok? ==> Continues(p, r.value) && Rem(r.value) < Rem(p) && r.value.code == p.code + [ins]
  {
    match Emitted(p, ins)
    case Err(e) => Err(e)
    case Ok(q) => Advance(q)
  }

  function ParsedExpr(p: Parser): (r: Parsed<Expr>)
    requires Ready(p)
    ensures r.Ok? ==> Continues(p, r.value.1) && r.value.1.code == p.code + ExprCode(r.value.0, |p.code|, p.vars)
    ensures r.Ok? ==> (r.value.0.CondExpr? <==> StartsCond(p.token))
    decreases Rem(p), 30
  {
    if StartsCond(p.token) then
      match ParsedCond(p)
      case Err(e) => Err(e)
      case Ok((c, q)) => Ok((CondExpr(c), q))
    else
      match ParsedArith(p)
      case Err(e) => Err(e)
      case Ok((a, q)) => Ok((ArithExpr(a), q))
  }

  function ParsedCond(p: Parser): (r: Parsed<Cond>)
    requires Ready(p)
    ensures r.Ok? ==> Continues(p, r.value.1) && r.value.1.code == p.code + CondCode(r.value.0, |p.code|, p.vars)
    ensures r.Ok? && r.value.0.Plain? ==> r.value.1.token != Sym(Jpz)
    decreases Rem(p), 29
  {
    match ParsedBoolExpr(p)
    case Err(e) => Err(e)
    case Ok((b, q)) =>
      if q.token != Sym(Jpz) then Ok((Plain(b), q))
      else ParsedChoice(p.code, b, q)
  }

  /** From the '?' on, once the test b is compiled after c0: both branches, then the two jump targets patched in. */
  function ParsedChoice(c0: seq<Instr>, b: BoolExpr, p: Parser): (r: Parsed<Cond>)
    requires Ready(p) && p.token == Sym(Jpz) && p.code == c0 + BoolExprCode(b, |c0|, p.vars)
    ensures r.Ok? ==> Continues(p, r.value.1) && r.value.0.Choice? && r.value.0.test == b
    ensures r.Ok? ==> r.value.1.code == c0 + CondCode(r.value.0, |c0|, p.vars)
    decreases Rem(p), 28
  {
    match ParsedTrueBranch(p)
    case Err(e) => Err(e)
    case Ok((yes, falseBranch, jumpEnd, q)) =>
      var falseStart := |q.code|;
      match ParsedExpr(q)
      case Err(e) => Err(e)
      case Ok((no, q')) =>
        var end := |q'.code|;
        ChoiceLayout(c0, b, yes, no, p.vars, p.code, q.code, q'.code, falseBranch, jumpEnd);
        Ok((Choice(b, yes, no), q'.(code := Patched(Patched(q'.code, falseBranch, falseStart as real), jumpEnd, end as real))))
  }

  /** '?' expression ':', with the placeholder JPZ before the true branch and the placeholder JP after it. */
  function ParsedTrueBranch(p: Parser): (r: Result<(Expr, nat, nat, Parser), CompileError>)
    requires Ready(p) && p.token == Sym(Jpz)
    ensures r.Ok? ==> Continues(p, r.value.3) && Rem(r.value.3) < Rem(p)
    ensures r.Ok? ==> r.value.1 == |p.code| && r.value.2 + 1 == |r.value.3.code|
    ensures r.Ok? ==> r.value.3.code == p.code + [Instr(Jpz, Value(0.0))] + ExprCode(r.value.0, |p.code| + 1, p.vars)
                                        + [Instr(Jp, Value(0.0))]
    decreases Rem(p), 27
  {
    match OpenedTrueBranch(p)
    case Err(e) => Err(e)
    case Ok((falseBranch, q)) =>
      match ParsedYes(q)
      case Err(e) => Err(e)
      case Ok((yes, jumpEnd, q')) =>
        assert |q.code| == |p.code| + 1;
        Ok((yes, falseBranch, jumpEnd, q'))
  }

  /** The true branch, then the placeholder JP (at jumpEnd) and the ':'. */
  function ParsedYes(p: Parser): (r: Result<(Expr, nat, Parser), CompileError>)
    requires Ready(p)
    ensures r.Ok? ==> Continues(p, r.value.2) && Rem(r.value.2) < Rem(p)
    ensures r.Ok? ==> r.value.1 + 1 == |r.value.2.code|
    ensures r.Ok? ==> r.value.2.code == p.code + ExprCode(r.value.0, |p.code|, p.vars) + [Instr(Jp, Value(0.0))]
    decreases Rem(p), 31
  {
    match ParsedExpr(p)
    case Err(e) => Err(e)
    case Ok((yes, q)) =>
      match ClosedTrueBranch(q)
      case Err(e) => Err(e)
      case Ok((jumpEnd, q')) => Ok((yes, jumpEnd, q'))
  }

  function OpenedTrueBranch(p: Parser): (r: Result<(nat, Parser), CompileError>)
    requires Ready(p) && p.token == Sym(Jpz)
    ensures r.Ok? ==> Continues(p, r.value.1) && Rem(r.value.1) < Rem(p)
    ensures r.Ok? ==> r.value.0 == |p.code| && r.value.1.code == p.code + [Instr(Jpz, Value(0.0))]
  {
    match Advance(p)
    case Err(e) => Err(e)
    case Ok(q) =>
      match Emitted(q, Instr(Jpz, Value(0.0)))
      case Err(e) => Err(e)
      case Ok(q') => Ok((|q.code|, q'))
  }

  function ClosedTrueBranch(p: Parser): (r: Result<(nat, Parser), CompileError>)
    requires Ready(p)
    ensures r.Ok? ==> Continues(p, r.value.1) && Rem(r.value.1) < Rem(p)
    ensures r.Ok? ==> r.value.0 == |p.code| && r.value.1.code == p.code + [Instr(Jp, Value(0.0))]
    ensures p.token != Colon && |p.code| + 1 < MaxCodeSize ==> r == Err(ExpectedColon)
  {
    match Emitted(p, Instr(Jp, Value(0.0)))
    case Err(e) => Err(e)
    case Ok(q) =>
      if q.token != Colon then Err(ExpectedColon)
      else match Advance(q)
        case Err(e) => Err(e)
        case Ok(q') => Ok((|p.code|, q'))
  }

  function ParsedBoolExpr(p: Parser): (r: Parsed<BoolExpr>)
    requires Ready(p)
    ensures r.Ok? ==> Continues(p, r.value.1) && r.value.1.code == p.code + BoolExprCode(r.value.0, |p.code|, p.vars)
    ensures r.Ok? ==> r.value.1.token != Sym(Generic(Or))
    decreases Rem(p), 26
  {
    match ParsedBoolTerm(p)
    case Err(e) => Err(e)
    case Ok((l, q)) => BoolExprLoop(p.code, BTerm(l), q)
  }

  /** The while-loop of parse_bool_expr, with t compiled after c0 so far. */
  function BoolExprLoop(c0: seq<Instr>, t: BoolExpr, p: Parser): (r: Parsed<BoolExpr>)
    requires Ready(p) && p.code == c0 + BoolExprCode(t, |c0|, p.vars)
    ensures r.Ok? ==> Continues(p, r.value.1) && r.value.1.code == c0 + BoolExprCode(r.value.0, |c0|, p.vars)
    ensures r.Ok? ==> r.value.1.token != Sym(Generic(Or))
    decreases Rem(p), 25
  {
    if p.token != Sym(Generic(Or)) then Ok((t, p))
    else
      match ParsedBoolExprOperand(p)
      case Err(e) => Err(e)
      case Ok((r, q)) =>
        BoolExprStep(c0, [], t, r, p.vars);
        BoolExprLoop(c0, BOr(t, r), q)
  }

  function ParsedBoolExprOperand(p: Parser): (r: Parsed<BoolTerm>)
    requires Ready(p) && p.token == Sym(Generic(Or))
    ensures r.Ok? ==> Continues(p, r.value.1) && Rem(r.value.1) < Rem(p)
    ensures r.Ok? ==> r.value.1.code == p.code + BoolTermCode(r.value.0, |p.code|, p.vars) + [OpInstr(Or)]
    decreases Rem(p), 24
  {
    match Advance(p)
    case Err(e) => Err(e)
    case Ok(q) =>
      match ParsedBoolTerm(q)
      case Err(e) => Err(e)
      case Ok((t, q')) =>
        match Emitted(q', OpInstr(Or))
        case Err(e) => Err(e)
        case Ok(q'') => Ok((t, q''))
  }

  function ParsedBoolTerm(p: Parser): (r: Parsed<BoolTerm>)
    requires Ready(p)
    ensures r.Ok? ==> Continues(p, r.value.1) && r.value.1.code == p.code + BoolTermCode(r.value.0, |p.code|, p.vars)
    ensures r.Ok? ==> r.value.1.token != Sym(Generic(And))
    decreases Rem(p), 23
  {
    match ParsedBoolFactor(p)
    case Err(e) => Err(e)
    case Ok((f, q)) => BoolTermLoop(p.code, BFactor(f), q)
  }

  /** The while-loop of parse_bool_term, with t compiled after c0 so far. */
  function BoolTermLoop(c0: seq<Instr>, t: BoolTerm, p: Parser): (r: Parsed<BoolTerm>)
    requires Ready(p) && p.code == c0 + BoolTermCode(t, |c0|, p.vars)
    ensures r.Ok? ==> Continues(p, r.value.1) && r.value.1.code == c0 + BoolTermCode(r.value.0, |c0|, p.vars)
    ensures r.Ok? ==> r.value.1.token != Sym(Generic(And))
    decreases Rem(p), 22
  {
    if p.token != Sym(Generic(And)) then Ok((t, p))
    else
      match ParsedBoolTermOperand(p)
      case Err(e) => Err(e)
      case Ok((r, q)) =>
        BoolTermStep(c0, [], t, r, p.vars);
        BoolTermLoop(c0, BAnd(t, r), q)
  }

  function ParsedBoolTermOperand(p: Parser): (r: Parsed<BoolFactor>)
    requires Ready(p) && p.token == Sym(Generic(And))
    ensures r.Ok? ==> Continues(p, r.value.1) && Rem(r.value.1) < Rem(p)
    ensures r.Ok? ==> r.value.1.code == p.code + BoolFactorCode(r.value.0, |p.code|, p.vars) + [OpInstr(And)]
    decreases Rem(p), 21
  {
    match Advance(p)
    case Err(e) => Err(e)
    case Ok(q) =>
      match ParsedBoolFactor(q)
      case Err(e) => Err(e)
      case Ok((f, q')) =>
        match Emitted(q', OpInstr(And))
        case Err(e) => Err(e)
        case Ok(q'') => Ok((f, q''))
  }

  function ParsedBoolFactor(p: Parser): (r: Parsed<BoolFactor>)
    requires Ready(p)
    ensures r.Ok? ==> Continues(p, r.value.1) && r.value.1.code == p.code + BoolFactorCode(r.value.0, |p.code|, p.vars)
    ensures r.Ok? ==> (r.value.0.BRel? <==> !StartsBoolFactor(p.token))
    decreases Rem(p), 20
  {
    if p.token == True || p.token == False then
      match EmittedThenAdvanced(p, Instr(PushNum, Value(if p.token == True then 1.0 else 0.0)))
      case Err(e) => Err(e)
      case Ok(q) => Ok((if p.token == True then BTrue else BFalse, q))
    else if p.token == Sym(Generic(Not)) then
      ParsedNegation(p)
    else if p.token == LParen then
      match ParsedParen(p)
      case Err(e) => Err(e)
      case Ok((e, q)) => Ok((BParen(e), q))
    else
      match ParsedRel(p)
      case Err(e) => Err(e)
      case Ok((rel, q)) => Ok((BRel(rel), q))
  }

  function ParsedNegation(p: Parser): (r: Parsed<BoolFactor>)
    requires Ready(p) && p.token == Sym(Generic(Not))
    ensures r.Ok? ==> Continues(p, r.value.1) && r.value.0.BNot?
    ensures r.Ok? ==> r.value.1.code == p.code + BoolFactorCode(r.value.0, |p.code|, p.vars)
    decreases Rem(p), 19
  {
    match Advance(p)
    case Err(e) => Err(e)
    case Ok(q) =>
      match ParsedBoolFactor(q)
      case Err(e) => Err(e)
      case Ok((f, q')) =>
        match Emitted(q', OpInstr(Not))
        case Err(e) => Err(e)
        case Ok(q'') =>
          NotStep(p.code, [], f, p.vars);
          Ok((BNot(f), q''))
  }

  function ParsedRel(p: Parser): (r: Parsed<Rel>)
    requires Ready(p)
    ensures r.Ok? ==> Continues(p, r.value.1) && r.value.1.code == p.code + RelCode(r.value.0, |p.code|, p.vars)
    ensures r.Ok? && r.value.0.Single? ==> !IsRelOp(r.value.1.token)
    decreases Rem(p), 19
  {
    match ParsedArith(p)
    case Err(e) => Err(e)
    case Ok((l, q)) =>
      if !IsRelOp(q.token) then Ok((Single(l), q))
      else
        match ParsedRelOperand(q)
        case Err(e) => Err(e)
        case Ok(((op, rhs), q')) =>
          CompareStep(p.code, [], l, op, rhs, p.vars);
          Ok((Compare(l, op, rhs), q'))
  }

  /** The right-hand side of a comparison: the operator, its operand and the operator's instruction. */
  function ParsedRelOperand(p: Parser): (r: Parsed<(GenOp, Arith)>)
    requires Ready(p) && IsRelOp(p.token)
    ensures r.Ok? ==> Continues(p, r.value.1) && Rem(r.value.1) < Rem(p) && p.token == Sym(Generic(r.value.0.0))
    ensures r.Ok? ==> r.value.1.code == p.code + ArithCode(r.value.0.1, |p.code|, p.vars) + [OpInstr(r.value.0.0)]
    decreases Rem(p), 18
  {
    var op := p.token.op.g;
    match Advance(p)
    case Err(e) => Err(e)
    case Ok(q) =>
      match ParsedArith(q)
      case Err(e) => Err(e)
      case Ok((rhs, q')) =>
        match Emitted(q', OpInstr(op))
        case Err(e) => Err(e)
        case Ok(q'') => Ok(((op, rhs), q''))
  }


  function ParsedArith(p: Parser): (r: Parsed<Arith>)
    requires Ready(p)
    ensures r.Ok? ==> Continues(p, r.value.1) && r.value.1.code == p.code + ArithCode(r.value.0, |p.code|, p.vars)
    ensures r.Ok? ==> r.value.1.token != Sym(Generic(Add)) && r.value.1.token != Sym(Generic(Sub))
    decreases Rem(p), 17
  {
    match ParsedTerm(p)
    case Err(e) => Err(e)
    case Ok((t, q)) => ArithLoop(p.code, ATerm(t), q)
  }

  /** The while-loop of parse_arithmetic_expr, with a compiled after c0 so far. */
  function ArithLoop(c0: seq<Instr>, a: Arith, p: Parser): (r: Parsed<Arith>)
    requires Ready(p) && p.code == c0 + ArithCode(a, |c0|, p.vars)
    ensures r.Ok? ==> Continues(p, r.value.1) && r.value.1.code == c0 + ArithCode(r.value.0, |c0|, p.vars)
    ensures r.Ok? ==> r.value.1.token != Sym(Generic(Add)) && r.value.1.token != Sym(Generic(Sub))
    decreases Rem(p), 16
  {
    if p.token != Sym(Generic(Add)) && p.token != Sym(Generic(Sub)) then Ok((a, p))
    else
      match ParsedArithOperand(p)
      case Err(e) => Err(e)
      case Ok(((op, t), q)) =>
        ArithStep(c0, [], a, op, t, p.vars);
        ArithLoop(c0, ABin(a, op, t), q)
  }

  function ParsedArithOperand(p: Parser): (r: Parsed<(GenOp, Term)>)
    requires Ready(p) && (p.token == Sym(Generic(Add)) || p.token == Sym(Generic(Sub)))
    ensures r.Ok? ==> Continues(p, r.value.1) && Rem(r.value.1) < Rem(p) && p.token == Sym(Generic(r.value.0.0))
    ensures r.Ok? ==> r.value.1.code == p.code + TermCode(r.value.0.1, |p.code|, p.vars) + [OpInstr(r.value.0.0)]
    decreases Rem(p), 15
  {
    var op := p.token.op.g;
    match Advance(p)
    case Err(e) => Err(e)
    case Ok(q) =>
      match ParsedTerm(q)
      case Err(e) => Err(e)
      case Ok((t, q')) =>
        match Emitted(q', OpInstr(op))
        case Err(e) => Err(e)
        case Ok(q'') => Ok(((op, t), q''))
  }

  function ParsedTerm(p: Parser): (r: Parsed<Term>)
    requires Ready(p)
    ensures r.Ok? ==> Continues(p, r.value.1) && r.value.1.code == p.code + TermCode(r.value.0, |p.code|, p.vars)
    ensures r.Ok? ==> r.value.1.token != Sym(Generic(Mul)) && r.value.1.token != Sym(Generic(Div))
    decreases Rem(p), 14
  {
    match ParsedFactor(p)
    case Err(e) => Err(e)
    case Ok((f, q)) => TermLoop(p.code, TFactor(f), q)
  }

  /** The while-loop of parse_term, with t compiled after c0 so far. */
  function TermLoop(c0: seq<Instr>, t: Term, p: Parser): (r: Parsed<Term>)
    requires Ready(p) && p.code == c0 + TermCode(t, |c0|, p.vars)
    ensures r.Ok? ==> Continues(p, r.value.1) && r.value.1.code == c0 + TermCode(r.value.0, |c0|, p.vars)
    ensures r.Ok? ==> r.value.1.token != Sym(Generic(Mul)) && r.value.1.token != Sym(Generic(Div))
    decreases Rem(p), 13
  {
    if p.token != Sym(Generic(Mul)) && p.token != Sym(Generic(Div)) then Ok((t, p))
    else
      match ParsedTermOperand(p)
      case Err(e) => Err(e)
      case Ok(((op, f), q)) =>
        TermStep(c0, [], t, op, f, p.vars);
        TermLoop(c0, TBin(t, op, f), q)
  }

  function ParsedTermOperand(p: Parser): (r: Parsed<(GenOp, Factor)>)
    requires Ready(p) && (p.token == Sym(Generic(Mul)) || p.token == Sym(Generic(Div)))
    ensures r.Ok? ==> Continues(p, r.value.1) && Rem(r.value.1) < Rem(p) && p.token == Sym(Generic(r.value.0.0))
    ensures r.Ok? ==> r.value.1.code == p.code + FactorCode(r.value.0.1, |p.code|, p.vars) + [OpInstr(r.value.0.0)]
    decreases Rem(p), 12
  {
    var op := p.token.op.g;
    match Advance(p)
    case Err(e) => Err(e)
    case Ok(q) =>
      match ParsedFactor(q)
      case Err(e) => Err(e)
      case Ok((f, q')) =>
        match Emitted(q', OpInstr(op))
        case Err(e) => Err(e)
        case Ok(q'') => Ok(((op, f), q''))
  }

  function ParsedFactor(p: Parser): (r: Parsed<Factor>)
    requires Ready(p)
    ensures r.Ok? ==> Continues(p, r.value.1) && r.value.1.code == p.code + FactorCode(r.value.0, |p.code|, p.vars)
    ensures r.Ok? ==> (r.value.0.FEmpty? <==> !StartsFactor(p.token))
    ensures p.token.IdName? && FindVariable(p.vars, p.token.name) == -1 ==> r == Err(UndefinedVariable(p.token.name))
    decreases Rem(p), 11
  {
    if p.token == LParen then
      match ParsedParen(p)
      case Err(e) => Err(e)
      case Ok((e, q)) => Ok((FParen(e), q))
    else if StartsFactor(p.token) then ParsedLeaf(p)
    else Ok((FEmpty, p))
  }

  /** The one-token factors: a number, a column name, a column index or a string. */
  function ParsedLeaf(p: Parser): (r: Parsed<Factor>)
    requires Ready(p) && StartsFactor(p.token) && p.token != LParen
    ensures r.Ok? ==> Continues(p, r.value.1) && Rem(r.value.1) < Rem(p)
    ensures r.Ok? ==> r.value.1.code == p.code + FactorCode(r.value.0, |p.code|, p.vars)
    ensures r.Ok? ==> FactorTokens(r.value.0) == [p.token] && !r.value.0.FEmpty?
    ensures p.token.IdName? && FindVariable(p.vars, p.token.name) == -1 ==> r == Err(UndefinedVariable(p.token.name))
  {
    match p.token
    case Number(v) => ParsedSingle(p, Instr(PushNum, Value(v)), FNum(v))
    case IdName(_) => ParsedName(p)
    case VarIndex(v) => ParsedSingle(p, Instr(PushVar, Value(v)), FIndex(v))
    case VarStr(s) => ParsedSingle(p, Instr(PushStr, Str(s)), FStr(s))
  }


  /** A column named by the header: pushed by its index, or an error when no column has that name. */
  function ParsedName(p: Parser): (r: Parsed<Factor>)
    requires Ready(p) && p.token.IdName?
    ensures r.Ok? ==> Continues(p, r.value.1) && r.value.1.code == p.code + FactorCode(r.value.0, |p.code|, p.vars)
    ensures r.Ok? ==> r.value.0 == FName(p.token.name)
    ensures r.Ok? ==> FindVariable(p.vars, p.token.name) >= 0
    ensures FindVariable(p.vars, p.token.name) == -1 ==> r == Err(UndefinedVariable(p.token.name))
  {
    var index := FindVariable(p.vars, p.token.name);
    if index == -1 then Err(UndefinedVariable(p.token.name))
    else ParsedSingle(p, Instr(PushVar, Value(index as real)), FName(p.token.name))
  }

  /** A factor of one token, compiled to the one instruction ins. */
  function ParsedSingle(p: Parser, ins: Instr, f: Factor): (r: Parsed<Factor>)
    requires Ready(p) && p.token != End && FactorCode(f, |p.code|, p.vars) == [ins]
    ensures r.Ok? ==> Continues(p, r.value.1) && Rem(r.value.1) < Rem(p) && r.value.0 == f
    ensures r.Ok? ==> r.value.1.code == p.code + FactorCode(f, |p.code|, p.vars)
  {
    match EmittedThenAdvanced(p, ins)
    case Err(e) => Err(e)
    case Ok(q) => Ok((f, q))
  }

  /** '(' expression ')', compiled as the expression alone. */
  function ParsedParen(p: Parser): (r: Parsed<Expr>)
    requires Ready(p) && p.token == LParen
    ensures r.Ok? ==> Continues(p, r.value.1) && Rem(r.value.1) < Rem(p)
    ensures r.Ok? ==> r.value.1.code == p.code + ExprCode(r.value.0, |p.code|, p.vars)
    decreases Rem(p), 10
  {
    match Advance(p)
    case Err(e) => Err(e)
    case Ok(q) =>
      match ParsedExpr(q)
      case Err(e) => Err(e)
      case Ok((e, q')) =>
        if q'.token != RParen then Err(ExpectedRParen)
        else
          match Advance(q')
          case Err(e) => Err(e)
          case Ok(q'') => Ok((e, q''))
  }
  /** A parenthesized expression that is not followed by ')' is refused with ExpectedRParen. */
  lemma UnclosedParenthesis(p: Parser)
    requires Ready(p) && p.token == LParen && Advance(p).Ok?
    requires ParsedExpr(Advance(p).value).Ok? && ParsedExpr(Advance(p).value).value.1.token != RParen
    ensures ParsedParen(p) == Err(ExpectedRParen)
    ensures ParsedFactor(p) == Err(ExpectedRParen) && ParsedBoolFactor(p) == Err(ExpectedRParen)
  {
  }


  /**
   * parse_expression: iexpr compiled against ivars, with the operator
   * probe starting at op_symbols[probeStart]: the expression's tree, and
   * its code followed by HALT.  Tokens after the expression are ignored.
   */
  function Compile(iexpr: string, ivars: seq<Variable>, probeStart: nat := 0): (r: Result<(Expr, seq<Instr>), CompileError>)
    requires HasEnd(ivars) && probeStart < OpCount
    ensures r.Ok? ==> r.value.1 == ExprCode(r.value.0, 0, ivars) + [Instr(Halt, Value(0.0))]
    ensures r.Ok? ==> |r.value.1| < MaxCodeSize && JumpsForward(r.value.1, 0)
  {
    match Lex(iexpr, 0, probeStart)
    case Err(e) => Err(e)
    case Ok((tok, pos)) =>
      match ParsedExpr(Parser(iexpr, ivars, probeStart, tok, pos, []))
      case Err(e) => Err(e)
      case Ok((t, q)) =>
        match Emitted(q, Instr(Halt, Value(0.0)))
        case Err(e) => Err(e)
        case Ok(q') =>
          CompiledCode(t, ivars, q'.code);
          Ok((t, q'.code))
  }
  /**
   * With the operator probe starting at op_symbols[1], as expr.c's lexer
   * does, whatever '+' the parser reaches stops the compilation.
   */
  lemma PlusStopsAsWritten(p: Parser)
    requires Ready(p) && p.probeStart == 1
    requires SkipBlanks(p.src, p.pos) < |p.src| && p.src[SkipBlanks(p.src, p.pos)] == '+'
    ensures Advance(p) == Err(UndefinedSymbol('+'))
  {
    PlusIsUndefinedSymbol(p.src, p.pos);
  }

  /** The smallest sum, "1+2", is refused by the compiler as written: it stops at the '+'. */
  lemma SumRefusedAsWritten(vars: seq<Variable>)
    requires HasEnd(vars)
    ensures Compile("1+2", vars, 1) == Err(UndefinedSymbol('+'))
  {
    var s := "1+2";
    var e: CompileError := UndefinedSymbol('+');
    assert RunEnd(s, 0, DoubleChars) == 1;
    assert s[0..1] == "1";
    assert RunEnd("1", 0, IntChars) == 1;
    assert DigitsValue("1") == 1 by { assert "1"[..0] == ""; }
    assert Lex(s, 0, 1) == Ok((Number(1.0), 1));
    var p0 := Parser(s, vars, 1, Number(1.0), 1, []);
    var ins := Instr(PushNum, Value(1.0));
    assert SkipBlanks(s, 1) == 1;
    PlusStopsAsWritten(p0.(code := [ins]));
    assert EmittedThenAdvanced(p0, ins) == Err(e);
    assert ParsedLeaf(p0) == Err(e);
    assert ParsedFactor(p0) == Err(e);
    assert ParsedTerm(p0) == Err(e);
    assert ParsedArith(p0) == Err(e);
    assert ParsedRel(p0) == Err(e);
    assert ParsedBoolFactor(p0) == Err(e);
    assert ParsedBoolTerm(p0) == Err(e);
    assert ParsedBoolExpr(p0) == Err(e);
    assert ParsedCond(p0) == Err(e);
    assert ParsedExpr(p0) == Err(e);
  }

  /** A number factor pushes its value and reads the next token. */
  lemma NumberFactor(p: Parser, v: real, t: Token, q: nat)
    requires Ready(p) && p.token == Number(v) && |p.code| + 1 < MaxCodeSize
    requires Lex(p.src, p.pos, p.probeStart) == Ok((t, q))
    ensures ParsedTerm(p) == TermLoop(p.code, TFactor(FNum(v)), p.(token := t, pos := q, code := p.code + [Instr(PushNum, Value(v))]))
  {
    var p' := p.(code := p.code + [Instr(PushNum, Value(v))]);
    assert Emitted(p, Instr(PushNum, Value(v))) == Ok(p');
    assert Advance(p') == Ok(p'.(token := t, pos := q));
    assert ParsedLeaf(p) == Ok((FNum(v), p'.(token := t, pos := q)));
  }

  /** The tokens of "1+2", with the probe from op_symbols[0]. */
  lemma SumTokens()
    ensures Lex("1+2", 0) == Ok((Number(1.0), 1))
    ensures Lex("1+2", 1) == Ok((Sym(Generic(Add)), 2))
    ensures Lex("1+2", 2) == Ok((Number(2.0), 3))
    ensures Lex("1+2", 3) == Ok((End, 3))
  {
    var s := "1+2";
    assert RunEnd(s, 0, DoubleChars) == 1 && s[0..1] == "1";
    assert RunEnd("1", 0, IntChars) == 1;
    assert DigitsValue("1") == 1 by { assert "1"[..0] == ""; }
    assert SkipBlanks(s, 1) == 1;
    PlusIsAddition(s, 1);
    assert SkipBlanks(s, 2) == 2;
    assert RunEnd(s, 2, DoubleChars) == 3 && s[2..3] == "2";
    assert RunEnd("2", 0, IntChars) == 1;
    assert DigitsValue("2") == 2 by { assert "2"[..0] == ""; }
  }

  /** "+2" after "1": the operand is read, pushed, and the addition emitted. */
  lemma SumOperand(vars: seq<Variable>)
    requires HasEnd(vars)
    ensures var i1, i2 := Instr(PushNum, Value(1.0)), Instr(PushNum, Value(2.0));
      ParsedArithOperand(Parser("1+2", vars, 0, Sym(Generic(Add)), 2, [i1]))
      == Ok(((Add, TFactor(FNum(2.0))), Parser("1+2", vars, 0, End, 3, [i1, i2, OpInstr(Add)])))
  {
    SumTokens();
    var i1, i2, add := Instr(PushNum, Value(1.0)), Instr(PushNum, Value(2.0)), OpInstr(Add);
    var p1 := Parser("1+2", vars, 0, Sym(Generic(Add)), 2, [i1]);
    var p2 := p1.(token := Number(2.0), pos := 3);
    var p3 := Parser("1+2", vars, 0, End, 3, [i1, i2]);
    assert [i1] + [i2] == [i1, i2] && [i1, i2] + [add] == [i1, i2, add];
    assert Advance(p1) == Ok(p2);
    NumberFactor(p2, 2.0, End, 3);
    assert ParsedTerm(p2) == Ok((TFactor(FNum(2.0)), p3));
    assert Emitted(p3, add) == Ok(p3.(code := [i1, i2, add]));
  }

  /** "1+2" as an arithmetic expression: the sum of its two numbers. */
  lemma SumParsed(vars: seq<Variable>)
    requires HasEnd(vars)
    ensures var i1, i2 := Instr(PushNum, Value(1.0)), Instr(PushNum, Value(2.0));
      ParsedArith(Parser("1+2", vars, 0, Number(1.0), 1, []))
      == Ok((ABin(ATerm(TFactor(FNum(1.0))), Add, TFactor(FNum(2.0))), Parser("1+2", vars, 0, End, 3, [i1, i2, OpInstr(Add)])))
  {
    SumTokens();
    SumOperand(vars);
    var i1, i2, add := Instr(PushNum, Value(1.0)), Instr(PushNum, Value(2.0)), OpInstr(Add);
    var one := TFactor(FNum(1.0));
    var p0 := Parser("1+2", vars, 0, Number(1.0), 1, []);
    var p1 := Parser("1+2", vars, 0, Sym(Generic(Add)), 2, [i1]);
    var p4 := Parser("1+2", vars, 0, End, 3, [i1, i2, add]);
    var sum := ABin(ATerm(one), Add, TFactor(FNum(2.0)));
    assert [] + [i1] == [i1];
    NumberFactor(p0, 1.0, Sym(Generic(Add)), 2);
    assert ParsedTerm(p0) == Ok((one, p1));
    assert ArithLoop([], sum, p4) == Ok((sum, p4));
    assert ArithLoop([], ATerm(one), p1) == Ok((sum, p4));
  }

  /** With the probe from op_symbols[0], "1+2" compiles to push 1, push 2, add, halt. */
  lemma SumCompiled(vars: seq<Variable>)
    requires HasEnd(vars)
    ensures Compile("1+2", vars).Ok?
    ensures Compile("1+2", vars).value.1 ==
      [Instr(PushNum, Value(1.0)), Instr(PushNum, Value(2.0)), OpInstr(Add), Instr(Halt, Value(0.0))]
  {
    SumTokens();
    SumParsed(vars);
    var p0 := Parser("1+2", vars, 0, Number(1.0), 1, []);
    var p4 := Parser("1+2", vars, 0, End, 3, [Instr(PushNum, Value(1.0)), Instr(PushNum, Value(2.0)), OpInstr(Add)]);
    var sum := ABin(ATerm(TFactor(FNum(1.0))), Add, TFactor(FNum(2.0)));
    assert ParsedRel(p0) == Ok((Single(sum), p4));
    assert ParsedBoolFactor(p0) == Ok((BRel(Single(sum)), p4));
    assert ParsedBoolTerm(p0) == Ok((BFactor(BRel(Single(sum))), p4));
    assert ParsedBoolExpr(p0) == Ok((BTerm(BFactor(BRel(Single(sum)))), p4));
    assert ParsedExpr(p0) == Ok((CondExpr(Plain(BTerm(BFactor(BRel(Single(sum)))))), p4));
  }



  /** A leading '+' is refused as written, before any code is emitted. */
  lemma LeadingPlusRefusedAsWritten(iexpr: string, vars: seq<Variable>)
    requires HasEnd(vars)
    requires SkipBlanks(iexpr, 0) < |iexpr| && iexpr[SkipBlanks(iexpr, 0)] == '+'
    ensures Compile(iexpr, vars, 1) == Err(UndefinedSymbol('+'))
    ensures Lex(iexpr, 0) == Ok((Sym(Generic(Add)), SkipBlanks(iexpr, 0) + 1))
  {
    PlusIsUndefinedSymbol(iexpr, 0);
    PlusIsAddition(iexpr, 0);
  }



  class Compiler {
    /** The expression text (expr .. expr_end of the source). */
    var src: string
    /** The cursor into src. */
    var pos: nat
    /** The current token. */
    var token: Token
    /** The op_symbols entry the operator probe of next_token starts at. */
    const probeStart: nat
    /** The code array, MAX_CODE_SIZE instructions. */
    const code: array<Instr>
    var codeSize: nat
    /** The variable table the identifiers are resolved in. */
    var vars: seq<Variable>
    /** The tokens consumed before the current one. */
    ghost var consumed: seq<Token>
    /** Where each token of consumed + [token] starts, then pos. */
    ghost var marks: seq<nat>
    /** The instructions emitted so far, code[0 .. codeSize). */
    ghost var emitted: seq<Instr>

    /**
     * The current token is the one lexed after the consumed ones, and the
     * cursor is just after it.
     */
    ghost predicate Valid()
      reads this, code
    {
      && code.Length == MaxCodeSize
      && probeStart < OpCount
      && codeSize < MaxCodeSize
      && emitted == code[..codeSize] && |emitted| == codeSize
      && pos <= |src|
      && HasEnd(vars)
      && (token == End ==> pos == |src|)
      && Chain(src, consumed + [token], marks, probeStart)
      && marks[|consumed| + 1] == pos
    }

    /** What is left to read; it shrinks with every token consumed before END. */
    ghost function Remaining(): nat
      reads this
      requires pos <= |src|
    {
      |src| - pos + (if token == End then 0 else 1)
    }

    /** The compiler's globals as a value, for the parse functions above. */
    ghost function State(): Parser
      reads this
    {
      Parser(src, vars, probeStart, token, pos, emitted)
    }

    constructor (probeStart: nat)
      requires probeStart < OpCount
      ensures this.probeStart == probeStart
      ensures code.Length == MaxCodeSize && codeSize == 0 && fresh(code)
    {
      this.probeStart := probeStart;
      src := "";
      pos := 0;
      token := End;
      code := new Instr[MaxCodeSize](_ => Instr(Nop, Value(0.0)));
      codeSize := 0;
      vars := [];
      consumed := [];
      marks := [0, 0];
      emitted := [];
    }

    /** next_token: read the token at the cursor and make it current. */
    method NextToken() returns (st: Outcome<CompileError>)
      requires Valid()
      modifies `pos, `token, `consumed, `marks
      ensures Valid() && Remaining() <= old(Remaining())
      ensures st.Pass? && old(token) != End ==> Remaining() < old(Remaining())
      ensures st.Pass? ==> Advance(old(State())) == Ok(State()) && consumed == old(consumed) + [old(token)]
      ensures st.Fail? ==> Advance(old(State())) == Err(st.error) && pos == old(pos) && token == old(token)
    {
      var r := NextTokenAt(src, pos, probeStart);
      match r
      case Err(e) =>
        st := Fail(e);
      case Ok((t, q)) =>
        ChainExtend(src, consumed + [token], marks, probeStart, t, q);
        consumed := consumed + [token];
        marks := marks + [q];
        token, pos := t, q;
        st := Pass;
    }

    /**
     * emit / emit_str, with the emit_overflow guard: append one instruction
     * unless that would leave no room below MAX_CODE_SIZE.
     */
    method Emit(ins: Instr) returns (st: Outcome<CompileError>)
      requires Valid()
      modifies `codeSize, `emitted, code
      ensures Valid()
      ensures st.Pass? <==> old(codeSize) + 1 < MaxCodeSize
      ensures st.Pass? ==> Emitted(old(State()), ins) == Ok(State())
      ensures st.Fail? ==> Emitted(old(State()), ins) == Err(st.error) && emitted == old(emitted)
    {
      if codeSize + 1 >= MaxCodeSize {
        return Fail(CodeOverflow);
      }
      code[codeSize] := ins;
      codeSize := codeSize + 1;
      emitted := emitted + [ins];
      st := Pass;
    }

    /** code[at].value = v: overwrite the operand of an emitted instruction. */
    method Patch(at: nat, v: real)
      requires Valid() && at < codeSize
      modifies code, `emitted
      ensures Valid()
      ensures emitted == Patched(old(emitted), at, v)
    {
      code[at] := Instr(code[at].op, Value(v));
      emitted := Patched(emitted, at, v);
    }

    /** The emit(...); next_token(); pair that ends each single-token case of parse_factor and parse_bool_factor. */
    method EmitThenAdvance(ins: Instr) returns (st: Outcome<CompileError>)
      requires Valid() && token != End
      modifies `pos, `token, `codeSize, `consumed, `marks, `emitted, code
      ensures Valid() && Remaining() <= old(Remaining())
      ensures st.Pass? ==> EmittedThenAdvanced(old(State()), ins) == Ok(State()) && consumed == old(consumed) + [old(token)]
      ensures st.Fail? ==> EmittedThenAdvanced(old(State()), ins) == Err(st.error)
    {
      st := Emit(ins);
      if st.Fail? {
        return;
      }
      st := NextToken();
    }

    /** parse_expr. */
    method ParseExpr() returns (st: Outcome<CompileError>, ghost t: Expr)
      requires Valid()
      modifies `pos, `token, `codeSize, `consumed, `marks, `emitted, code
      ensures Valid() && Remaining() <= old(Remaining())
      ensures st.Pass? ==> ParsedExpr(old(State())) == Ok((t, State()))
      ensures st.Fail? ==> ParsedExpr(old(State())) == Err(st.error)
      ensures st.Pass? ==> consumed == old(consumed) + ExprTokens(t)
      decreases Remaining(), 10
    {
      if StartsCond(token) {
        ghost var c;
        st, c := ParseCondExpr();
        t := CondExpr(c);
      } else {
        ghost var a;
        st, a := ParseArithmeticExpr();
        t := ArithExpr(a);
      }
    }

    /** parse_cond_expr, with its back-patching of the two jump targets. */
    method ParseCondExpr() returns (st: Outcome<CompileError>, ghost t: Cond)
      requires Valid()
      modifies `pos, `token, `codeSize, `consumed, `marks, `emitted, code
      ensures Valid() && Remaining() <= old(Remaining())
      ensures st.Pass? ==> ParsedCond(old(State())) == Ok((t, State()))
      ensures st.Fail? ==> ParsedCond(old(State())) == Err(st.error)
      ensures st.Pass? ==> consumed == old(consumed) + CondTokens(t)
      decreases Remaining(), 9
    {
      ghost var b;
      st, b := ParseBoolExpr();
      t := Plain(b);
      if st.Fail? || token != Sym(Jpz) {
        return;
      }
      st, t := ParseChoice(old(emitted), old(consumed), b);
    }

    /**
     * The conditional part of parse_cond_expr, entered on '?' once the test b has been
     * compiled: both branches, then the two jump targets patched in.
     */
    method ParseChoice(ghost e0: seq<Instr>, ghost k0: seq<Token>, ghost b: BoolExpr) returns (st: Outcome<CompileError>, ghost t: Cond)
      requires Valid() && token == Sym(Jpz)
      requires emitted == e0 + BoolExprCode(b, |e0|, vars)
      requires consumed == k0 + BoolExprTokens(b)
      modifies `pos, `token, `codeSize, `consumed, `marks, `emitted, code
      ensures Valid() && Remaining() <= old(Remaining())
      ensures st.Pass? ==> ParsedChoice(e0, b, old(State())) == Ok((t, State()))
      ensures st.Fail? ==> ParsedChoice(e0, b, old(State())) == Err(st.error)
      ensures st.Pass? ==> consumed == k0 + CondTokens(t)
      decreases Remaining(), 8
    {
      t := Plain(b);
      var codeFalseBranch, codeJumpEnd;
      ghost var yes;
      st, codeFalseBranch, codeJumpEnd, yes := ParseTrueBranch();
      if st.Fail? {
        return;
      }
      ghost var branch := State();
      var codeFalse := codeSize;
      ghost var no;
      st, no := ParseExpr();
      if st.Fail? {
        return;
      }
      ghost var after := State();
      Patch(codeFalseBranch, codeFalse as real);
      Patch(codeJumpEnd, codeSize as real);
      t := Choice(b, yes, no);
      assert State() == after.(code := Patched(Patched(after.code, codeFalseBranch, codeFalse as real), codeJumpEnd, codeSize as real));
      ChoiceTokens(k0, b, yes, no);
    }

    /**
     * The middle of parse_cond_expr: '?' expression ':', emitting the
     * placeholder JPZ before the true branch and the placeholder JP after
     * it; falseBranch and jumpEnd are where the two placeholders are.
     */
    method ParseTrueBranch() returns (st: Outcome<CompileError>, falseBranch: nat, jumpEnd: nat, ghost yes: Expr)
      requires Valid() && token == Sym(Jpz)
      modifies `pos, `token, `codeSize, `consumed, `marks, `emitted, code
      ensures Valid() && Remaining() <= old(Remaining())
      ensures st.Pass? ==> ParsedTrueBranch(old(State())) == Ok((yes, falseBranch, jumpEnd, State()))
      ensures st.Fail? ==> ParsedTrueBranch(old(State())) == Err(st.error)
      ensures st.Pass? ==> Remaining() < old(Remaining())
      ensures st.Pass? ==> consumed == old(consumed) + [Sym(Jpz)] + ExprTokens(yes) + [Colon]
      decreases Remaining(), 7
    {
      jumpEnd, yes := 0, ArithExpr(ATerm(TFactor(FEmpty)));
      st, falseBranch := OpenTrueBranch();
      if st.Fail? {
        return;
      }
      st, yes := ParseExpr();
      if st.Fail? {
        return;
      }
      st, jumpEnd := CloseTrueBranch();
    }

    /** Skips the '?' and emits the JPZ whose target is patched later. */
    method OpenTrueBranch() returns (st: Outcome<CompileError>, falseBranch: nat)
      requires Valid() && token == Sym(Jpz)
      modifies `pos, `token, `codeSize, `consumed, `marks, `emitted, code
      ensures Valid() && Remaining() <= old(Remaining())
      ensures st.Pass? ==> OpenedTrueBranch(old(State())) == Ok((falseBranch, State()))
      ensures st.Fail? ==> OpenedTrueBranch(old(State())) == Err(st.error)
      ensures st.Pass? ==> Remaining() < old(Remaining())
      ensures st.Pass? ==> consumed == old(consumed) + [Sym(Jpz)]
    {
      falseBranch := 0;
      st := NextToken();
      if st.Fail? {
        return;
      }
      falseBranch := codeSize;
      st := Emit(Instr(Jpz, Value(0.0)));
    }

    /** Emits the JP over the false branch, then demands and skips the ':'. */
    method CloseTrueBranch() returns (st: Outcome<CompileError>, jumpEnd: nat)
      requires Valid()
      modifies `pos, `token, `codeSize, `consumed, `marks, `emitted, code
      ensures Valid() && Remaining() <= old(Remaining())
      ensures st.Pass? ==> ClosedTrueBranch(old(State())) == Ok((jumpEnd, State()))
      ensures st.Fail? ==> ClosedTrueBranch(old(State())) == Err(st.error)
      ensures st.Pass? ==> Remaining() < old(Remaining())
      ensures st.Pass? ==> consumed == old(consumed) + [Colon]
    {
      jumpEnd := codeSize;
      st := Emit(Instr(Jp, Value(0.0)));
      if st.Fail? {
        return;
      }
      if token != Colon {
        st := Fail(ExpectedColon);
        return;
      }
      st := NextToken();
    }

    /** parse_bool_expr: left-associative '|'. */
    method ParseBoolExpr() returns (st: Outcome<CompileError>, ghost t: BoolExpr)
      requires Valid()
      modifies `pos, `token, `codeSize, `consumed, `marks, `emitted, code
      ensures Valid() && Remaining() <= old(Remaining())
      ensures st.Pass? ==> ParsedBoolExpr(old(State())) == Ok((t, State()))
      ensures st.Fail? ==> ParsedBoolExpr(old(State())) == Err(st.error)
      ensures st.Pass? ==> consumed == old(consumed) + BoolExprTokens(t)
      decreases Remaining(), 7
    {
      ghost var first;
      st, first := ParseBoolTerm();
      t := BTerm(first);
      if st.Fail? {
        return;
      }
      while token == Sym(Generic(Or))
        invariant Valid() && Remaining() <= old(Remaining())
        invariant st.Pass?
        invariant emitted == old(emitted) + BoolExprCode(t, old(codeSize), vars)
        invariant consumed == old(consumed) + BoolExprTokens(t)
        invariant BoolExprLoop(old(emitted), t, State()) == ParsedBoolExpr(old(State()))
        decreases Remaining()
      {
        ghost var r;
        st, r := ParseBoolExprOperand();
        if st.Fail? {
          return;
        }
        BoolExprStep(old(emitted), old(consumed), t, r, vars);
        t := BOr(t, r);
      }
    }

    /** One round of the loop in parse_bool_expr: the '|', its right operand, then OR. */
    method ParseBoolExprOperand() returns (st: Outcome<CompileError>, ghost r: BoolTerm)
      requires Valid() && token == Sym(Generic(Or))
      modifies `pos, `token, `codeSize, `consumed, `marks, `emitted, code
      ensures Valid() && Remaining() <= old(Remaining())
      ensures st.Pass? ==> ParsedBoolExprOperand(old(State())) == Ok((r, State()))
      ensures st.Fail? ==> ParsedBoolExprOperand(old(State())) == Err(st.error)
      ensures st.Pass? ==> Remaining() < old(Remaining())
      ensures st.Pass? ==> consumed == old(consumed) + [Sym(Generic(Or))] + BoolTermTokens(r)
      decreases Remaining(), 6
    {
      r := BFactor(BTrue);
      st := NextToken();
      if st.Fail? {
        return;
      }
      st, r := ParseBoolTerm();
      if st.Fail? {
        return;
      }
      st := Emit(OpInstr(Or));
    }

    /** parse_bool_term: left-associative '&'. */
    method ParseBoolTerm() returns (st: Outcome<CompileError>, ghost t: BoolTerm)
      requires Valid()
      modifies `pos, `token, `codeSize, `consumed, `marks, `emitted, code
      ensures Valid() && Remaining() <= old(Remaining())
      ensures st.Pass? ==> ParsedBoolTerm(old(State())) == Ok((t, State()))
      ensures st.Fail? ==> ParsedBoolTerm(old(State())) == Err(st.error)
      ensures st.Pass? ==> consumed == old(consumed) + BoolTermTokens(t)
      decreases Remaining(), 6
    {
      ghost var first;
      st, first := ParseBoolFactor();
      t := BFactor(first);
      if st.Fail? {
        return;
      }
      while token == Sym(Generic(And))
        invariant Valid() && Remaining() <= old(Remaining())
        invariant st.Pass?
        invariant emitted == old(emitted) + BoolTermCode(t, old(codeSize), vars)
        invariant consumed == old(consumed) + BoolTermTokens(t)
        invariant BoolTermLoop(old(emitted), t, State()) == ParsedBoolTerm(old(State()))
        decreases Remaining()
      {
        ghost var r;
        st, r := ParseBoolTermOperand();
        if st.Fail? {
          return;
        }
        BoolTermStep(old(emitted), old(consumed), t, r, vars);
        t := BAnd(t, r);
      }
    }

    /** One round of the loop in parse_bool_term: the '&', its right operand, then AND. */
    method ParseBoolTermOperand() returns (st: Outcome<CompileError>, ghost r: BoolFactor)
      requires Valid() && token == Sym(Generic(And))
      modifies `pos, `token, `codeSize, `consumed, `marks, `emitted, code
      ensures Valid() && Remaining() <= old(Remaining())
      ensures st.Pass? ==> ParsedBoolTermOperand(old(State())) == Ok((r, State()))
      ensures st.Fail? ==> ParsedBoolTermOperand(old(State())) == Err(st.error)
      ensures st.Pass? ==> Remaining() < old(Remaining())
      ensures st.Pass? ==> consumed == old(consumed) + [Sym(Generic(And))] + BoolFactorTokens(r)
      decreases Remaining(), 5
    {
      r := BTrue;
      st := NextToken();
      if st.Fail? {
        return;
      }
      st, r := ParseBoolFactor();
      if st.Fail? {
        return;
      }
      st := Emit(OpInstr(And));
    }

    /**
     * The '(' case of parse_factor and of parse_bool_factor:
     * '(' expression ')', compiled as the expression alone.
     */
    method ParseParenthesized() returns (st: Outcome<CompileError>, ghost e: Expr)
      requires Valid() && token == LParen
      modifies `pos, `token, `codeSize, `consumed, `marks, `emitted, code
      ensures Valid() && Remaining() <= old(Remaining())
      ensures st.Pass? ==> ParsedParen(old(State())) == Ok((e, State()))
      ensures st.Fail? ==> ParsedParen(old(State())) == Err(st.error)
      ensures st.Pass? ==> consumed == old(consumed) + ([LParen] + ExprTokens(e) + [RParen])
      ensures st.Pass? ==> old(Remaining()) > Remaining()
      decreases Remaining(), 0
    {
      e := ArithExpr(ATerm(TFactor(FEmpty)));
      st := NextToken();
      if st.Fail? {
        return;
      }
      st, e := ParseExpr();
      if st.Fail? {
        return;
      }
      if token != RParen {
        st := Fail(ExpectedRParen);
        return;
      }
      st := NextToken();
      Associative(old(consumed), [LParen], ExprTokens(e));
      Associative(old(consumed), [LParen] + ExprTokens(e), [RParen]);
    }

    /** parse_bool_factor. */
    method ParseBoolFactor() returns (st: Outcome<CompileError>, ghost t: BoolFactor)
      requires Valid()
      modifies `pos, `token, `codeSize, `consumed, `marks, `emitted, code
      ensures Valid() && Remaining() <= old(Remaining())
      ensures st.Pass? ==> ParsedBoolFactor(old(State())) == Ok((t, State()))
      ensures st.Fail? ==> ParsedBoolFactor(old(State())) == Err(st.error)
      ensures st.Pass? ==> consumed == old(consumed) + BoolFactorTokens(t)
      decreases Remaining(), 5
    {
      t := BTrue;
      if token == True || token == False {
        var isTrue := token == True;
        st := EmitThenAdvance(Instr(PushNum, Value(if isTrue then 1.0 else 0.0)));
        t := if isTrue then BTrue else BFalse;
      } else if token == Sym(Generic(Not)) {
        st, t := ParseNegation();
      } else if token == LParen {
        ghost var e;
        st, e := ParseParenthesized();
        t := BParen(e);
      } else {
        ghost var r;
        st, r := ParseRelExpr();
        t := BRel(r);
      }
    }

    /** The '!' case of parse_bool_factor: the operand, then NOT. */
    method ParseNegation() returns (st: Outcome<CompileError>, ghost t: BoolFactor)
      requires Valid() && token == Sym(Generic(Not))
      modifies `pos, `token, `codeSize, `consumed, `marks, `emitted, code
      ensures Valid() && Remaining() <= old(Remaining())
      ensures st.Pass? ==> ParsedNegation(old(State())) == Ok((t, State()))
      ensures st.Fail? ==> ParsedNegation(old(State())) == Err(st.error)
      ensures st.Pass? ==> consumed == old(consumed) + BoolFactorTokens(t)
      decreases Remaining(), 4
    {
      t := BNot(BTrue);
      st := NextToken();
      if st.Fail? {
        return;
      }
      ghost var f;
      st, f := ParseBoolFactor();
      if st.Fail? {
        return;
      }
      st := Emit(OpInstr(Not));
      if st.Fail? {
        return;
      }
      NotStep(old(emitted), old(consumed), f, vars);
      t := BNot(f);
    }

    /** parse_rel_expr: one arithmetic expression, or two joined by one relational operator. */
    method ParseRelExpr() returns (st: Outcome<CompileError>, ghost t: Rel)
      requires Valid()
      modifies `pos, `token, `codeSize, `consumed, `marks, `emitted, code
      ensures Valid() && Remaining() <= old(Remaining())
      ensures st.Pass? ==> ParsedRel(old(State())) == Ok((t, State()))
      ensures st.Fail? ==> ParsedRel(old(State())) == Err(st.error)
      ensures st.Pass? ==> consumed == old(consumed) + RelTokens(t)
      decreases Remaining(), 4
    {
      ghost var l;
      st, l := ParseArithmeticExpr();
      t := Single(l);
      if st.Fail? || !IsRelOp(token) {
        return;
      }
      var op;
      ghost var r;
      st, op, r := ParseRelOperand();
      if st.Fail? {
        return;
      }
      CompareStep(old(emitted), old(consumed), l, op, r, vars);
      t := Compare(l, op, r);
    }

    /** Parses a comparison operator, its right-hand operand, and emits the operator. */
    method ParseRelOperand() returns (st: Outcome<CompileError>, op: GenOp, ghost r: Arith)
      requires Valid() && IsRelOp(token)
      modifies `pos, `token, `codeSize, `consumed, `marks, `emitted, code
      ensures Valid() && Remaining() <= old(Remaining())
      ensures st.Pass? ==> ParsedRelOperand(old(State())) == Ok(((op, r), State()))
      ensures st.Fail? ==> ParsedRelOperand(old(State())) == Err(st.error)
      ensures st.Pass? ==> consumed == old(consumed) + [Sym(Generic(op))] + ArithTokens(r)
      decreases Remaining(), 3
    {
      op := token.op.g;
      r := ATerm(TFactor(FEmpty));
      st := NextToken();
      if st.Fail? {
        return;
      }
      st, r := ParseArithmeticExpr();
      if st.Fail? {
        return;
      }
      st := Emit(OpInstr(op));
    }


    /** parse_arithmetic_expr: left-associative '+' and '-'. */
    method ParseArithmeticExpr() returns (st: Outcome<CompileError>, ghost t: Arith)
      requires Valid()
      modifies `pos, `token, `codeSize, `consumed, `marks, `emitted, code
      ensures Valid() && Remaining() <= old(Remaining())
      ensures st.Pass? ==> ParsedArith(old(State())) == Ok((t, State()))
      ensures st.Fail? ==> ParsedArith(old(State())) == Err(st.error)
      ensures st.Pass? ==> consumed == old(consumed) + ArithTokens(t)
      decreases Remaining(), 3
    {
      ghost var first;
      st, first := ParseTerm();
      t := ATerm(first);
      if st.Fail? {
        return;
      }
      while token == Sym(Generic(Add)) || token == Sym(Generic(Sub))
        invariant Valid() && Remaining() <= old(Remaining())
        invariant st.Pass?
        invariant emitted == old(emitted) + ArithCode(t, old(codeSize), vars)
        invariant consumed == old(consumed) + ArithTokens(t)
        invariant ArithLoop(old(emitted), t, State()) == ParsedArith(old(State()))
        decreases Remaining()
      {
        var op;
        ghost var r;
        st, op, r := ParseArithmeticOperand();
        if st.Fail? {
          return;
        }
        ArithStep(old(emitted), old(consumed), t, op, r, vars);
        t := ABin(t, op, r);
      }
    }

    /** One round of the loop in parse_arithmetic_expr: the '+' or '-', its right term, then the operator's instruction. */
    method ParseArithmeticOperand() returns (st: Outcome<CompileError>, op: GenOp, ghost r: Term)
      requires Valid() && (token == Sym(Generic(Add)) || token == Sym(Generic(Sub)))
      modifies `pos, `token, `codeSize, `consumed, `marks, `emitted, code
      ensures Valid() && Remaining() <= old(Remaining())
      ensures st.Pass? ==> ParsedArithOperand(old(State())) == Ok(((op, r), State()))
      ensures st.Fail? ==> ParsedArithOperand(old(State())) == Err(st.error)
      ensures st.Pass? ==> Remaining() < old(Remaining())
      ensures st.Pass? ==> consumed == old(consumed) + [Sym(Generic(op))] + TermTokens(r)
      decreases Remaining(), 2
    {
      op := token.op.g;
      r := TFactor(FEmpty);
      st := NextToken();
      if st.Fail? {
        return;
      }
      st, r := ParseTerm();
      if st.Fail? {
        return;
      }
      st := Emit(OpInstr(op));
    }

    /** parse_term: left-associative '*' and '/'. */
    method ParseTerm() returns (st: Outcome<CompileError>, ghost t: Term)
      requires Valid()
      modifies `pos, `token, `codeSize, `consumed, `marks, `emitted, code
      ensures Valid() && Remaining() <= old(Remaining())
      ensures st.Pass? ==> ParsedTerm(old(State())) == Ok((t, State()))
      ensures st.Fail? ==> ParsedTerm(old(State())) == Err(st.error)
      ensures st.Pass? ==> consumed == old(consumed) + TermTokens(t)
      decreases Remaining(), 2
    {
      ghost var first;
      st, first := ParseFactor();
      t := TFactor(first);
      if st.Fail? {
        return;
      }
      while token == Sym(Generic(Mul)) || token == Sym(Generic(Div))
        invariant Valid() && Remaining() <= old(Remaining())
        invariant st.Pass?
        invariant emitted == old(emitted) + TermCode(t, old(codeSize), vars)
        invariant consumed == old(consumed) + TermTokens(t)
        invariant TermLoop(old(emitted), t, State()) == ParsedTerm(old(State()))
        decreases Remaining()
      {
        var op;
        ghost var r;
        st, op, r := ParseTermOperand();
        if st.Fail? {
          return;
        }
        TermStep(old(emitted), old(consumed), t, op, r, vars);
        t := TBin(t, op, r);
      }
    }

    /** One round of the loop in parse_term: the '*' or '/', its right factor, then the operator's instruction. */
    method ParseTermOperand() returns (st: Outcome<CompileError>, op: GenOp, ghost r: Factor)
      requires Valid() && (token == Sym(Generic(Mul)) || token == Sym(Generic(Div)))
      modifies `pos, `token, `codeSize, `consumed, `marks, `emitted, code
      ensures Valid() && Remaining() <= old(Remaining())
      ensures st.Pass? ==> ParsedTermOperand(old(State())) == Ok(((op, r), State()))
      ensures st.Fail? ==> ParsedTermOperand(old(State())) == Err(st.error)
      ensures st.Pass? ==> Remaining() < old(Remaining())
      ensures st.Pass? ==> consumed == old(consumed) + [Sym(Generic(op))] + FactorTokens(r)
      decreases Remaining(), 1
    {
      op := token.op.g;
      r := FEmpty;
      st := NextToken();
      if st.Fail? {
        return;
      }
      st, r := ParseFactor();
      if st.Fail? {
        return;
      }
      st := Emit(OpInstr(op));
    }

    /** parse_factor; a token it has no case for is left for the caller and nothing is emitted. */
    method ParseFactor() returns (st: Outcome<CompileError>, ghost t: Factor)
      requires Valid()
      modifies `pos, `token, `codeSize, `consumed, `marks, `emitted, code
      ensures Valid() && Remaining() <= old(Remaining())
      ensures st.Pass? ==> ParsedFactor(old(State())) == Ok((t, State()))
      ensures st.Fail? ==> ParsedFactor(old(State())) == Err(st.error)
      ensures st.Pass? ==> consumed == old(consumed) + FactorTokens(t)
      decreases Remaining(), 1
    {
      if token == LParen {
        ghost var e;
        st, e := ParseParenthesized();
        t := FParen(e);
      } else if StartsFactor(token) {
        st, t := ParseLeaf();
      } else {
        st, t := Pass, FEmpty;
      }
    }

    /** The one-token cases of parse_factor: each emits one push and reads the next token. */
    method ParseLeaf() returns (st: Outcome<CompileError>, ghost t: Factor)
      requires Valid() && StartsFactor(token) && token != LParen
      modifies `pos, `token, `codeSize, `consumed, `marks, `emitted, code
      ensures Valid() && Remaining() <= old(Remaining())
      ensures st.Pass? ==> ParsedLeaf(old(State())) == Ok((t, State()))
      ensures st.Fail? ==> ParsedLeaf(old(State())) == Err(st.error)
      ensures st.Pass? ==> consumed == old(consumed) + [old(token)]
    {
      match token
      case Number(v) =>
        st := EmitThenAdvance(Instr(PushNum, Value(v)));
        t := FNum(v);
      case IdName(name) =>
        st := ParseName();
        t := FName(name);
      case VarIndex(v) =>
        st := EmitThenAdvance(Instr(PushVar, Value(v)));
        t := FIndex(v);
      case VarStr(s) =>
        st := EmitThenAdvance(Instr(PushStr, Str(s)));
        t := FStr(s);
    }

    /** The identifier case of parse_factor: looks the name up among the header's columns. */
    method ParseName() returns (st: Outcome<CompileError>)
      requires Valid() && token.IdName?
      modifies `pos, `token, `codeSize, `consumed, `marks, `emitted, code
      ensures Valid() && Remaining() <= old(Remaining())
      ensures st.Pass? ==> ParsedName(old(State())) == Ok((FName(old(token).name), State()))
      ensures st.Fail? ==> ParsedName(old(State())) == Err(st.error)
      ensures st.Pass? ==> consumed == old(consumed) + [old(token)]
    {
      var index := LookupVariable(vars, token.name);
      if index == -1 {
        st := Fail(UndefinedVariable(token.name));
        return;
      }
      st := EmitThenAdvance(Instr(PushVar, Value(index as real)));
    }


    /**
     * parse_expression: compile iexpr against the variable table ivars and
     * end the program with HALT.  Tokens after the expression are ignored.
     */
    method ParseExpression(iexpr: string, ivars: seq<Variable>) returns (r: Result<seq<Instr>, CompileError>, ghost t: Expr)
      requires code.Length == MaxCodeSize && probeStart < OpCount && HasEnd(ivars)
      modifies this, code
      ensures r.Ok? ==> Compile(iexpr, ivars, probeStart) == Ok((t, r.value))
      ensures r.Err? ==> Compile(iexpr, ivars, probeStart) == Err(r.error)
      ensures r.Ok? ==> Leads(iexpr, ExprTokens(t), probeStart)
    {
      t := ArithExpr(ATerm(TFactor(FEmpty)));
      var st := Start(iexpr, ivars);
      if st.Fail? {
        return Err(st.error), t;
      }
      st, t := ParseExpr();
      if st.Fail? {
        return Err(st.error), t;
      }
      st := Emit(Instr(Halt, Value(0.0)));
      if st.Fail? {
        return Err(st.error), t;
      }
      r := Ok(code[..codeSize]);
      ChainPrefix(src, consumed, token, marks, probeStart);
      assert [] + ExprTokens(t) == ExprTokens(t);
      assert Chain(iexpr, ExprTokens(t), marks[..|consumed| + 1], probeStart);
    }

    /** The start of parse_expression: an empty code buffer and the first token read. */
    method Start(iexpr: string, ivars: seq<Variable>) returns (st: Outcome<CompileError>)
      requires code.Length == MaxCodeSize && probeStart < OpCount && HasEnd(ivars)
      modifies this
      ensures st.Pass? ==> Valid() && consumed == [] && Lex(iexpr, 0, probeStart) == Ok((token, pos))
                           && State() == Parser(iexpr, ivars, probeStart, token, pos, [])
      ensures st.Fail? ==> Lex(iexpr, 0, probeStart) == Err(st.error)
    {
      src, vars, codeSize, consumed, emitted := iexpr, ivars, 0, [], [];
      var first := NextTokenAt(src, 0, probeStart);
      if first.Err? {
        return Fail(first.error);
      }
      token, pos := first.value.0, first.value.1;
      marks := [0, pos];
      st := Pass;
    }
  }
}
