/**
 * The lexer of src/expr.c (set_token, next_token_str, next_token) as
 * functions of the expression text and a cursor position, plus the loops
 * that scan it, each proved against those functions.
 */
module ExprLexer {
  import opened Common
  import opened ExecDefs

  /** The token kinds of src/expr.c.  Operators keep the opcode op_symbols gives them ('?' is OP_JPZ). */
  datatype Token =
    | Sym(op: Op)
    | Colon | LParen | RParen | True | False
    | Number(value: real)
    | IdName(name: string)
    | VarIndex(value: real)
    | VarStr(str: string)
    | End

  /** Every exit(EXIT_FAILURE) of src/expr.c. */
  datatype CompileError =
    | UndefinedSymbol(c: char)           // "Undefined symbol"
    | UnterminatedString(quote: char)    // "Can't find trailing"
    | StringTooLong                      // "String too long"
    | UndefinedVariable(name: string)    // "Undefined variable"
    | ExpectedRParen                     // "Expected ')'"
    | ExpectedColon                      // "Expected ':' for conditional expression"
    | CodeOverflow                       // "code array overflow"

  /** MAX_STR_SIZE: a scanned run of MAX_STR_SIZE - 1 characters or more aborts. */
  const MaxStrSize: nat := 32

  /** The character sets IS_INT, IS_DOUBLE and IS_ALPHA_INT. */
  datatype CharClass = IntChars | DoubleChars | AlphaIntChars

  predicate IsDigit(c: char) { '0' <= c <= '9' }

  /** IS_ALPHA: ASCII letters and '_'. */
  predicate IsAlpha(c: char) { ('a' <= c <= 'z') || ('A' <= c <= 'Z') || c == '_' }

  /** IS_SPACE of src/expr.c: only blank, tab and newline. */
  predicate IsBlank(c: char) { c == ' ' || c == '\t' || c == '\n' }

  predicate InClass(c: char, cls: CharClass)
  {
    match cls
    case IntChars => IsDigit(c)
    case DoubleChars => IsDigit(c) || c == '.'
    case AlphaIntChars => IsAlpha(c) || IsDigit(c)
  }

  /** The number of entries of op_symbols, the closing "" / TOK_END entry included. */
  const OpCount: nat := 20

  /** Entry i of the operator table op_symbols, in source order; the last is "" / TOK_END. */
  function OpSymbol(i: nat): (string, Token)
    requires i < OpCount
  {
    match i
    case 0 => ("+", Sym(Generic(Add)))
    case 1 => ("-", Sym(Generic(Sub)))
    case 2 => ("*", Sym(Generic(Mul)))
    case 3 => ("/", Sym(Generic(Div)))
    case 4 => ("!=", Sym(Generic(Neq)))
    case 5 => ("<=", Sym(Generic(Le)))
    case 6 => (">=", Sym(Generic(Ge)))
    case 7 => ("<", Sym(Generic(Lt)))
    case 8 => (">", Sym(Generic(Gt)))
    case 9 => ("=", Sym(Generic(Eq)))
    case 10 => ("&", Sym(Generic(And)))
    case 11 => ("|", Sym(Generic(Or)))
    case 12 => ("!", Sym(Generic(Not)))
    case 13 => ("?", Sym(Jpz))
    case 14 => (":", Colon)
    case 15 => ("(", LParen)
    case 16 => (")", RParen)
    case 17 => ("true", True)
    case 18 => ("false", False)
    case _ => ("", End)
  }

  /** Only the closing entry of op_symbols carries TOK_END. */
  lemma OnlyLastEnds(i: nat)
    requires i < OpCount
    ensures OpSymbol(i).1 == End <==> i + 1 == OpCount
  {
  }

  /** The end of the maximal run of class cls starting at i. */
  function RunEnd(s: string, i: nat, cls: CharClass): (e: nat)
    requires i <= |s|
    ensures i <= e <= |s|
    ensures forall k :: i <= k < e ==> InClass(s[k], cls)
    ensures e < |s| ==> !InClass(s[e], cls)
    decreases |s| - i
  {
    if i < |s| && InClass(s[i], cls) then RunEnd(s, i + 1, cls) else i
  }

  /** The first position at or after i that is not blank. */
  function SkipBlanks(s: string, i: nat): (j: nat)
    requires i <= |s|
    ensures i <= j <= |s|
    ensures forall k :: i <= k < j ==> IsBlank(s[k])
    ensures j < |s| ==> !IsBlank(s[j])
    decreases |s| - i
  {
    if i < |s| && IsBlank(s[i]) then SkipBlanks(s, i + 1) else i
  }

  /** The first occurrence of c at or after i, or |s| when there is none. */
  function FindChar(s: string, i: nat, c: char): (e: nat)
    requires i <= |s|
    ensures i <= e <= |s|
    ensures forall k :: i <= k < e ==> s[k] != c
    ensures e < |s| ==> s[e] == c
    decreases |s| - i
  {
    if i < |s| && s[i] != c then FindChar(s, i + 1, c) else i
  }

  function Pow10(n: nat): (p: nat)
    ensures p >= 1
  {
    if n == 0 then 1 else 10 * Pow10(n - 1)
  }

  /** The value of a run of decimal digits ("" has value 0). */
  function DigitsValue(ds: string): (v: nat)
    requires forall k :: 0 <= k < |ds| ==> IsDigit(ds[k])
    ensures v < Pow10(|ds|)
  {
    if ds == [] then 0
    else
      var d := (ds[|ds| - 1] as int) - ('0' as int);
      assert IsDigit(ds[|ds| - 1]);
      10 * DigitsValue(ds[..|ds| - 1]) + d
  }

  /**
   * What strtod returns for a run of digits and dots: the longest prefix of
   * the form digits [ '.' digits ], or 0 when that prefix holds no digit.
   */
  function StrtodRun(run: string): (v: real)
    requires forall k :: 0 <= k < |run| ==> InClass(run[k], DoubleChars)
    ensures v >= 0.0
  {
    var k := RunEnd(run, 0, IntChars);
    var whole := DigitsValue(run[..k]);
    if k < |run| && run[k] == '.' then
      var f := RunEnd(run, k + 1, IntChars);
      whole as real + DigitsValue(run[k + 1..f]) as real / Pow10(f - k - 1) as real
    else
      whole as real
  }

  /** set_token(op, cls, 0): the token built from the maximal run of cls at i. */
  function ScanToken(s: string, i: nat, cls: CharClass): (r: Result<(Token, nat), CompileError>)
    requires i <= |s|
    ensures r.Ok? ==> i <= r.value.1 <= |s|
  {
    var e := RunEnd(s, i, cls);
    if e - i >= MaxStrSize - 1 then Err(StringTooLong)
    else
      var run := s[i..e];
      match cls
      case IntChars => Ok((VarIndex(StrtodRun(run)), e))
      case DoubleChars => Ok((Number(StrtodRun(run)), e))
      case AlphaIntChars => Ok((IdName(run), e))
  }

  /**
   * set_token aborts with "String too long" exactly on a run of
   * MAX_STR_SIZE - 1 characters or more; otherwise its token spans exactly
   * the maximal run, and an identifier carries that run.
   */
  lemma ScanTokenSpansRun(s: string, i: nat, cls: CharClass)
    requires i <= |s|
    ensures var r := ScanToken(s, i, cls);
      && (r.Err? <==> RunEnd(s, i, cls) - i >= MaxStrSize - 1)
      && (r.Err? ==> r.error == StringTooLong)
      && (r.Ok? ==> var e := r.value.1;
            e - i < MaxStrSize - 1 && (forall k :: i <= k < e ==> InClass(s[k], cls)) && (e < |s| ==> !InClass(s[e], cls)))
      && (r.Ok? && cls == AlphaIntChars ==> r.value.0 == IdName(s[i..r.value.1]))
  {
  }

  /** next_token_str: a literal up to the next identical quote; the cursor ends past that quote. */
  function LexQuoted(s: string, q: nat): (r: Result<(Token, nat), CompileError>)
    requires q < |s|
    ensures r.Ok? ==> q < r.value.1 <= |s| && r.value.0.VarStr?
    ensures r.Err? <==> FindChar(s, q + 1, s[q]) == |s|
  {
    var e := FindChar(s, q + 1, s[q]);
    if e == |s| then Err(UnterminatedString(s[q])) else Ok((VarStr(s[q + 1..e]), e + 1))
  }

  /** s[q..] starts with w (strncmp(expr, w, |w|) == 0 on a NUL-terminated string). */
  predicate StartsWith(s: string, q: nat, w: string)
    requires q <= |s|
  {
    w <= s[q..]
  }

  /** The probe loop of next_token, from table entry i up to the TOK_END entry. */
  function Probe(s: string, q: nat, i: nat): (r: Option<(Token, nat)>)
    requires q <= |s| && i < OpCount
    ensures r.Some? ==> q < r.value.1 <= |s| && r.value.0 != End
    decreases OpCount - i
  {
    var (w, tok) := OpSymbol(i);
    if tok == End || i + 1 == OpCount then None
    else if StartsWith(s, q, w) then Some((tok, q + |w|))
    else Probe(s, q, i + 1)
  }

  /**
   * next_token: the token at the cursor p and the cursor after it.  The
   * operator probe starts at op_symbols[first]; the compiler uses the
   * default, op_symbols[0].
   */
  function Lex(s: string, p: nat, first: nat := 0): (r: Result<(Token, nat), CompileError>)
    requires p <= |s| && first < OpCount
    ensures r.Ok? ==> p <= r.value.1 <= |s|
    ensures r.Ok? && r.value.0 != End ==> p < r.value.1
    ensures r.Ok? && r.value.0 == End ==> r.value.1 == |s|
  {
    var q := SkipBlanks(s, p);
    if q == |s| then Ok((End, q))
    else if s[q] == '"' || s[q] == '\'' then LexQuoted(s, q)
    else if s[q] == '#' then ScanToken(s, q + 1, IntChars)
    else if InClass(s[q], DoubleChars) then ScanToken(s, q, DoubleChars)
    else match Probe(s, q, first)
      case Some(hit) => Ok(hit)
      case None =>
        if IsAlpha(s[q]) then ScanToken(s, q, AlphaIntChars)
        else Err(UndefinedSymbol(s[q]))
  }

  /**
   * next_token as written: `for (item = op_symbols; item++;)` advances the
   * pointer before the first test, so the probe starts at op_symbols[1] and
   * never tries "+".
   */
  function LexAsWritten(s: string, p: nat): (r: Result<(Token, nat), CompileError>)
    requires p <= |s|
    ensures r.Ok? && r.value.0 != End ==> p < r.value.1 <= |s|
  {
    Lex(s, p, 1)
  }

  /**
   * ts are lexed one after another from the start of s: token i spans
   * marks[i] .. marks[i + 1].
   */
  ghost predicate Chain(s: string, ts: seq<Token>, marks: seq<nat>, first: nat)
  {
    && first < OpCount
    && |marks| == |ts| + 1
    && marks[0] == 0
    && (forall i :: 0 <= i < |marks| ==> marks[i] <= |s|)
    && forall i {:trigger Lex(s, marks[i], first)} :: 0 <= i < |ts| ==> Lex(s, marks[i], first) == Ok((ts[i], marks[i + 1]))
  }

  /** Lexing one more token extends a chain. */
  lemma ChainExtend(s: string, ts: seq<Token>, marks: seq<nat>, first: nat, t: Token, q: nat)
    requires Chain(s, ts, marks, first) && marks[|ts|] <= |s| && Lex(s, marks[|ts|], first) == Ok((t, q))
    ensures Chain(s, ts + [t], marks + [q], first)
  {
    var ts', marks' := ts + [t], marks + [q];
    forall i | 0 <= i < |ts'|
      ensures Lex(s, marks'[i], first) == Ok((ts'[i], marks'[i + 1]))
    {
      if i < |ts| {
        assert marks'[i] == marks[i] && marks'[i + 1] == marks[i + 1] && ts'[i] == ts[i];
        assert Lex(s, marks[i], first) == Ok((ts[i], marks[i + 1]));
      } else {
        assert i == |ts|;
      }
    }
  }

  /** ts are the first tokens of s, read one after another from its start. */
  ghost predicate Leads(s: string, ts: seq<Token>, first: nat)
  {
    exists marks :: Chain(s, ts, marks, first)
  }

  /** Dropping the last token of a chain leaves a chain. */
  lemma ChainPrefix(s: string, ts: seq<Token>, t: Token, marks: seq<nat>, first: nat)
    requires Chain(s, ts + [t], marks, first)
    ensures Chain(s, ts, marks[..|ts| + 1], first)
  {
    var m := marks[..|ts| + 1];
    forall i | 0 <= i < |ts|
      ensures Lex(s, m[i], first) == Ok((ts[i], m[i + 1]))
    {
      assert m[i] == marks[i] && m[i + 1] == marks[i + 1] && ts[i] == (ts + [t])[i];
      assert Lex(s, marks[i], first) == Ok(((ts + [t])[i], marks[i + 1]));
    }
  }

  // ---------------------------------------------------------------------
  // The scanning loops of src/expr.c, each proved equal to its function
  // ---------------------------------------------------------------------

  /** set_token(tok, cls, 0): scan the maximal run of cls at i, then convert it. */
  method SetToken(s: string, i: nat, cls: CharClass) returns (r: Result<(Token, nat), CompileError>)
    requires i <= |s|
    ensures r == ScanToken(s, i, cls)
  {
    var e := i;
    while e < |s| && InClass(s[e], cls)
      invariant i <= e <= |s|
      invariant RunEnd(s, e, cls) == RunEnd(s, i, cls)
      decreases |s| - e
    {
      e := e + 1;
    }
    if e - i >= MaxStrSize - 1 {
      return Err(StringTooLong);
    }
    var run := s[i..e];
    if cls != AlphaIntChars {
      forall k | 0 <= k < |run|
        ensures InClass(run[k], DoubleChars)
      {
        assert run[k] == s[i + k];
      }
    }
    match cls
    case IntChars => r := Ok((VarIndex(StrtodRun(run)), e));
    case DoubleChars => r := Ok((Number(StrtodRun(run)), e));
    case AlphaIntChars => r := Ok((IdName(run), e));
  }

  /** next_token_str: s[q] is the opening quote. */
  method NextTokenStr(s: string, q: nat) returns (r: Result<(Token, nat), CompileError>)
    requires q < |s|
    ensures r == LexQuoted(s, q)
  {
    var find := s[q];
    var e := q + 1;
    while e < |s| && s[e] != find
      invariant q + 1 <= e <= |s|
      invariant FindChar(s, e, find) == FindChar(s, q + 1, find)
      decreases |s| - e
    {
      e := e + 1;
    }
    if e == |s| {
      return Err(UnterminatedString(find));
    }
    r := Ok((VarStr(s[q + 1..e]), e + 1));
  }

  /** The op_symbols loop of next_token, from entry first on: the first operator spelled at q. */
  method ProbeOperators(s: string, q: nat, first: nat) returns (hit: Option<(Token, nat)>)
    requires q < |s| && first < OpCount
    ensures hit == Probe(s, q, first)
  {
    var i := first;
    while OpSymbol(i).1 != End
      invariant 0 <= i < OpCount
      invariant Probe(s, q, i) == Probe(s, q, first)
      decreases OpCount - i
    {
      var (w, tok) := OpSymbol(i);
      if w <= s[q..] {
        ProbeHits(s, q, i, w, tok);
        return Some((tok, q + |w|));
      }
      ProbeStep(s, q, i);
      i := i + 1;
    }
    ProbeEnds(s, q, i);
    return None;
  }

  /** next_token: skip blanks, then try strings, indices, numbers, the operator table and names in that order. */
  method NextTokenAt(s: string, p: nat, first: nat) returns (r: Result<(Token, nat), CompileError>)
    requires p <= |s| && first < OpCount
    ensures r == Lex(s, p, first)
  {
    var q := p;
    while q < |s| && IsBlank(s[q])
      invariant p <= q <= |s|
      invariant SkipBlanks(s, q) == SkipBlanks(s, p)
      decreases |s| - q
    {
      q := q + 1;
    }
    if q == |s| {
      return Ok((End, q));
    }
    if s[q] == '"' || s[q] == '\'' {
      r := NextTokenStr(s, q);
      return;
    }
    if s[q] == '#' {
      r := SetToken(s, q + 1, IntChars);
      return;
    }
    if InClass(s[q], DoubleChars) {
      r := SetToken(s, q, DoubleChars);
      return;
    }
    var hit := ProbeOperators(s, q, first);
    if hit.Some? {
      return Ok(hit.value);
    }
    if IsAlpha(s[q]) {
      r := SetToken(s, q, AlphaIntChars);
      return;
    }
    r := Err(UndefinedSymbol(s[q]));
  }

  // ---------------------------------------------------------------------
  // Properties of the lexer
  // ---------------------------------------------------------------------

  /** As written, the probe starts at op_symbols[1], so '+' is never a token: it is an undefined symbol. */
  lemma PlusIsUndefinedSymbol(s: string, p: nat)
    requires p <= |s|
    requires SkipBlanks(s, p) < |s| && s[SkipBlanks(s, p)] == '+'
    ensures LexAsWritten(s, p) == Err(UndefinedSymbol('+'))
  {
    var q := SkipBlanks(s, p);
    ProbeMisses(s, q, 1);
  }

  /** With the probe starting at op_symbols[0], '+' is the addition operator. */
  lemma PlusIsAddition(s: string, p: nat)
    requires p <= |s|
    requires SkipBlanks(s, p) < |s| && s[SkipBlanks(s, p)] == '+'
    ensures Lex(s, p) == Ok((Sym(Generic(Add)), SkipBlanks(s, p) + 1))
  {
    var q := SkipBlanks(s, p);
    assert StartsWith(s, q, "+") by {
      assert s[q..][0] == s[q];
    }
  }

  /** The lexer as written and the corrected one read the same token at every position not holding '+'. */
  lemma AsWrittenDiffersOnlyOnPlus(s: string, p: nat)
    requires p <= |s|
    requires SkipBlanks(s, p) == |s| || s[SkipBlanks(s, p)] != '+'
    ensures LexAsWritten(s, p) == Lex(s, p)
  {
    var q := SkipBlanks(s, p);
    if q < |s| {
      assert !StartsWith(s, q, "+") by {
        assert s[q..][0] == s[q];
      }
    }
  }

  /** No table entry from i on matches at q when s[q] starts none of them. */
  lemma ProbeMisses(s: string, q: nat, i: nat)
    requires q < |s| && i < OpCount
    requires forall k :: i <= k < OpCount - 1 ==> OpSymbol(k).0[0] != s[q]
    ensures Probe(s, q, i) == None
    decreases OpCount - i
  {
    if OpSymbol(i).1 != End {
      assert !StartsWith(s, q, OpSymbol(i).0) by {
        assert s[q..][0] == s[q];
      }
      ProbeMisses(s, q, i + 1);
    }
  }

  /** The probe stops, finding nothing, at the closing entry. */
  lemma ProbeEnds(s: string, q: nat, i: nat)
    requires q <= |s| && i < OpCount && OpSymbol(i).1 == End
    ensures Probe(s, q, i) == None
  {
  }

  /** The probe stops at an entry spelled at q. */
  lemma ProbeHits(s: string, q: nat, i: nat, w: string, tok: Token)
    requires q <= |s| && i < OpCount && OpSymbol(i) == (w, tok) && tok != End && StartsWith(s, q, w)
    ensures Probe(s, q, i) == Some((tok, q + |w|))
  {
    OnlyLastEnds(i);
  }

  /** The probe passes over an entry not spelled at q. */
  lemma ProbeStep(s: string, q: nat, i: nat)
    requires q <= |s| && i < OpCount && OpSymbol(i).1 != End && !StartsWith(s, q, OpSymbol(i).0)
    ensures i + 1 < OpCount && Probe(s, q, i) == Probe(s, q, i + 1)
  {
    OnlyLastEnds(i);
  }

  /** Entries i up to j that do not start with c, the character at q, are passed over by the probe. */
  lemma {:induction false} ProbeSkips(s: string, q: nat, c: char, i: nat, j: nat)
    requires q < |s| && s[q] == c && i <= j < OpCount
    requires forall k :: i <= k < j ==> |OpSymbol(k).0| > 0 && OpSymbol(k).0[0] != c && OpSymbol(k).1 != End
    ensures Probe(s, q, i) == Probe(s, q, j)
    decreases j - i
  {
    if i < j {
      var (w, tok) := OpSymbol(i);
      assert !StartsWith(s, q, w) by {
        assert s[q..][0] == c;
      }
      ProbeStep(s, q, i);
      ProbeSkips(s, q, c, i + 1, j);
    }
  }

  /** The entries before "!=", "<=" and ">=" start with other characters and do not end the table. */
  lemma EarlierEntriesStartOtherwise()
    ensures forall k :: 0 <= k < 4 ==> |OpSymbol(k).0| > 0 && OpSymbol(k).0[0] != '!' && OpSymbol(k).1 != End
    ensures forall k :: 0 <= k < 5 ==> |OpSymbol(k).0| > 0 && OpSymbol(k).0[0] != '<' && OpSymbol(k).1 != End
    ensures forall k :: 0 <= k < 6 ==> |OpSymbol(k).0| > 0 && OpSymbol(k).0[0] != '>' && OpSymbol(k).1 != End
  {
  }

  /** Table order: "!=", "<=" and ">=" are found before "!", "<" and ">". */
  lemma TwoCharOperatorsWin(s: string, q: nat)
    requires q + 2 <= |s|
    requires s[q..q + 2] in {"!=", "<=", ">="}
    ensures Probe(s, q, 0) == Some((if s[q] == '!' then Sym(Generic(Neq))
                                   else if s[q] == '<' then Sym(Generic(Le))
                                   else Sym(Generic(Ge)), q + 2))
  {
    var w := s[q..q + 2];
    assert s[q..][..2] == w && w[0] == s[q];
    EarlierEntriesStartOtherwise();
    if w == "!=" {
      ProbeSkips(s, q, '!', 0, 4);
      ProbeHits(s, q, 4, "!=", Sym(Generic(Neq)));
    } else if w == "<=" {
      ProbeSkips(s, q, '<', 0, 5);
      ProbeHits(s, q, 5, "<=", Sym(Generic(Le)));
    } else {
      ProbeSkips(s, q, '>', 0, 6);
      ProbeHits(s, q, 6, ">=", Sym(Generic(Ge)));
    }
  }

  /** strtod reads the run "1.2.3" up to its second dot: 1.2. */
  lemma MalformedRunPrefix()
    ensures StrtodRun("1.2.3") == 1.2
  {
    var run := "1.2.3";
    assert RunEnd(run, 0, IntChars) == 1;
    assert RunEnd(run, 2, IntChars) == 3;
    assert run[..1] == "1" && run[2..3] == "2";
    assert DigitsValue("1") == 1 by { assert "1"[..0] == ""; }
    assert DigitsValue("2") == 2 by { assert "2"[..0] == ""; }
    assert Pow10(1) == 10;
  }

  /** A malformed numeric run such as "1.2.3" is one Number token carrying strtod's prefix value. */
  lemma MalformedNumberAccepted()
    ensures Lex("1.2.3", 0) == Ok((Number(1.2), 5))
  {
    var s := "1.2.3";
    assert RunEnd(s, 0, DoubleChars) == 5;
    assert s[0..5] == s;
    MalformedRunPrefix();
    assert ScanToken(s, 0, DoubleChars) == Ok((Number(1.2), 5));
  }

  /** "#" with no digits is the index 0. */
  lemma EmptyIndexIsZero(s: string, p: nat)
    requires p <= |s|
    requires SkipBlanks(s, p) < |s| && s[SkipBlanks(s, p)] == '#'
    requires SkipBlanks(s, p) + 1 == |s| || !IsDigit(s[SkipBlanks(s, p) + 1])
    ensures Lex(s, p) == Ok((VarIndex(0.0), SkipBlanks(s, p) + 1))
  {
    var q := SkipBlanks(s, p);
    assert RunEnd(s, q + 1, IntChars) == q + 1;
    assert s[q + 1..q + 1] == "";
  }

  /** The entries before "true" in op_symbols neither start with 't' nor end the table. */
  lemma NoEarlierEntryStartsWithT()
    ensures forall k :: 0 <= k < 17 ==> |OpSymbol(k).0| > 0 && OpSymbol(k).0[0] != 't' && OpSymbol(k).1 != End
  {
  }

  /** "true" and "false" are matched as prefixes before identifiers are scanned. */
  lemma TrueIsAPrefixMatch(s: string, q: nat)
    requires q + 4 <= |s| && s[q..q + 4] == "true"
    ensures Lex(s, q) == Ok((True, q + 4))
  {
    assert s[q..][..4] == "true";
    assert s[q] == 't';
    NoEarlierEntryStartsWithT();
    ProbeSkips(s, q, 't', 0, 17);
    ProbeHits(s, q, 17, "true", True);
    assert SkipBlanks(s, q) == q;
  }
}
