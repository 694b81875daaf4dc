/**
 * The row filter of src/fcsv.c: split every line at the delimiter, name the
 * columns after the header, type them by the first data row, compile the
 * expression once against that table, and copy every row for which the
 * compiled program yields true.
 *
 * The globals tokens[] and variables[] are the arrays of a CsvTable.  The
 * lines are those fgets returns into a buffer of MAX_LINE_ITEMS bytes; the
 * C library routines strtod, atof and strptime are parameters (Libc).
 */
module Csv {
  import opened Common
  import opened ExecDefs
  import opened Text
  import opened ExprLexer
  import opened ExprSyntax
  import Compilation = Expr
  import opened Exec

  /** MAX_LINE_ITEMS: the size of the line buffers and of the token and variable tables. */
  const MaxLineItems: nat := 1024

  /**
   * The slots of the token and variable tables in this model: one more than
   * MAX_LINE_ITEMS, so that the NULL after the widest line still fits.
   */
  const TableSlots: nat := MaxLineItems + 1

  /** The C library routines the reader relies on, whose code is not part of this model. */
  datatype Libc = Libc(
    strtodEnd: string -> nat,              // how many characters strtod consumes
    atof: string -> real,                  // the value atof reads
    strptime: string -> Option<DateTime>)  // strptime with DATE_FORMAT; None is NULL

  // ---------------------------------------------------------------------
  // Splitting a line
  // ---------------------------------------------------------------------

  /** strchr(s + i, d): the first index at or after i holding d, or |s| when there is none. */
  function FindFrom(s: string, i: nat, d: char): (e: nat)
    requires i <= |s|
    ensures i <= e <= |s|
    ensures e < |s| ==> s[e] == d
    ensures forall k :: i <= k < e ==> s[k] != d
    decreases |s| - i
  {
    if i == |s| || s[i] == d then i else FindFrom(s, i + 1, d)
  }

  /** The pieces of s[i..] between delimiters, as the first loop of tokenize_line cuts them. */
  function FieldsFrom(s: string, i: nat, d: char): (fs: seq<string>)
    requires i <= |s|
    ensures fs != []
    decreases |s| - i
  {
    var e := FindFrom(s, i, d);
    if e == |s| then [s[i..]] else [s[i..e]] + FieldsFrom(s, e + 1, d)
  }

  /** The raw fields of a line. */
  function Fields(s: string, d: char): seq<string>
  {
    FieldsFrom(s, 0, d)
  }

  /** The fields glued back together with the delimiter between them. */
  function Join(fs: seq<string>, d: char): string
    requires fs != []
  {
    if |fs| == 1 then fs[0] else fs[0] + [d] + Join(fs[1..], d)
  }

  /** Cutting the field at start off the fields still to cut keeps the whole split. */
  lemma CutOne(s: string, start: nat, d: char, cut: seq<string>, fs: seq<string>)
    requires start <= |s| && FindFrom(s, start, d) < |s|
    requires cut + FieldsFrom(s, start, d) == fs
    ensures var e := FindFrom(s, start, d);
      (cut + [s[start..e]]) + FieldsFrom(s, e + 1, d) == fs
  {
    var e := FindFrom(s, start, d);
    assert FieldsFrom(s, start, d) == [s[start..e]] + FieldsFrom(s, e + 1, d);
    Associative(cut, [s[start..e]], FieldsFrom(s, e + 1, d));
  }

  /** With no delimiter left, the rest of the line is the last field. */
  lemma CutLast(s: string, start: nat, d: char, cut: seq<string>, fs: seq<string>)
    requires start <= |s| && FindFrom(s, start, d) == |s|
    requires cut + FieldsFrom(s, start, d) == fs
    ensures cut + [s[start..]] == fs
  {
  }

  /** There is one field more than there are delimiters. */
  lemma {:induction false} FieldsCount(s: string, i: nat, d: char)
    requires i <= |s|
    ensures |FieldsFrom(s, i, d)| == multiset(s[i..])[d] + 1
    decreases |s| - i
  {
    var e := FindFrom(s, i, d);
    if e < |s| {
      FieldsCount(s, e + 1, d);
      DelimiterCounted(s, i, e, d);
      assert |FieldsFrom(s, i, d)| == |FieldsFrom(s, e + 1, d)| + 1;
    } else {
      assert |FieldsFrom(s, i, d)| == 1;
      NoDelimiterCounted(s[i..], d);
    }
  }

  /** A text without the delimiter counts none of it. */
  lemma NoDelimiterCounted(t: string, d: char)
    requires forall k :: 0 <= k < |t| ==> t[k] != d
    ensures multiset(t)[d] == 0
  {
    assert d !in t;
  }

  /** The delimiter at e, with none between i and e, is the one more s[i..] counts than s[e + 1..]. */
  lemma DelimiterCounted(s: string, i: nat, e: nat, d: char)
    requires i <= e < |s| && s[e] == d
    requires forall k :: i <= k < e ==> s[k] != d
    ensures multiset(s[i..])[d] == multiset(s[e + 1..])[d] + 1
  {
    NoDelimiterCounted(s[i..e], d);
    assert s[i..] == s[i..e] + ([d] + s[e + 1..]);
    assert multiset(s[i..]) == multiset(s[i..e]) + multiset([d]) + multiset(s[e + 1..]);
  }

  /** No field holds the delimiter. */
  lemma {:induction false} FieldsHaveNoDelimiter(s: string, i: nat, d: char)
    requires i <= |s|
    ensures forall k :: 0 <= k < |FieldsFrom(s, i, d)| ==> d !in FieldsFrom(s, i, d)[k]
    decreases |s| - i
  {
    var e := FindFrom(s, i, d);
    assert d !in s[i..e];
    if e < |s| {
      FieldsHaveNoDelimiter(s, e + 1, d);
    }
  }

  /** Joining the fields gives back the text they were cut from. */
  lemma {:induction false} JoinFields(s: string, i: nat, d: char)
    requires i <= |s|
    ensures Join(FieldsFrom(s, i, d), d) == s[i..]
    decreases |s| - i
  {
    var e := FindFrom(s, i, d);
    var fs := FieldsFrom(s, i, d);
    if e < |s| {
      JoinFields(s, e + 1, d);
      assert fs[1..] == FieldsFrom(s, e + 1, d);
      assert Join(fs, d) == s[i..e] + [d] + s[e + 1..];
      assert s[i..] == s[i..e] + [d] + s[e + 1..];
    }
  }

  /** Cutting a join of delimiter-free pieces gives back the pieces. */
  lemma {:induction false} FieldsOfJoin(fs: seq<string>, d: char)
    requires fs != []
    requires forall k :: 0 <= k < |fs| ==> d !in fs[k]
    ensures Fields(Join(fs, d), d) == fs
    decreases |fs|
  {
    var s := Join(fs, d);
    var e := FindFrom(s, 0, d);
    if |fs| == 1 {
      assert e == |s|;
    } else {
      FieldsOfJoin(fs[1..], d);
      assert e == |fs[0]| by {
        assert s[|fs[0]|] == d;
        assert s[..|fs[0]|] == fs[0];
      }
      FieldsShift(s, e + 1, d);
      assert s[e + 1..] == Join(fs[1..], d);
      assert s[..e] == fs[0];
    }
  }

  /** The fields of a suffix do not depend on what comes before it. */
  lemma {:induction false} FieldsShift(s: string, i: nat, d: char)
    requires i <= |s|
    ensures FieldsFrom(s, i, d) == Fields(s[i..], d)
    decreases |s| - i
  {
    var e := FindFrom(s, i, d);
    var e' := FindFrom(s[i..], 0, d);
    assert e' == e - i by {
      FindShift(s, i, i, d);
    }
    if e < |s| {
      FieldsShift(s, e + 1, d);
      FieldsShift(s[i..], e' + 1, d);
      assert s[i..][e' + 1..] == s[e + 1..];
      assert s[i..][0..e'] == s[i..e];
    } else {
      assert s[i..][0..] == s[i..];
    }
  }

  /** Searching a suffix finds the same delimiter, shifted. */
  lemma {:induction false} FindShift(s: string, i: nat, j: nat, d: char)
    requires i <= j <= |s|
    ensures FindFrom(s[i..], j - i, d) == FindFrom(s, j, d) - i
    decreases |s| - j
  {
    if j < |s| && s[j] != d {
      FindShift(s, i, j + 1, d);
    }
  }

  /** tokenize_line's result: the fields, each without leading and trailing spaces. */
  function LineTokens(line: string, d: char): (r: seq<string>)
    ensures |r| == |Fields(line, d)| <= |line| + 1
    ensures forall k :: 0 <= k < |r| ==> r[k] == Trim(Fields(line, d)[k])
  {
    FieldsCount(line, 0, d);
    assert line[0..] == line;
    var fs := Fields(line, d);
    seq(|fs|, k requires 0 <= k < |fs| => Trim(fs[k]))
  }

  /** The token table holds toks followed by the NULL that ends them. */
  ghost predicate Holds(ts: seq<Option<string>>, toks: seq<string>)
  {
    |toks| < |ts| && ts[|toks|] == None
    && forall k :: 0 <= k < |toks| ==> ts[k] == Some(toks[k])
  }

  // ---------------------------------------------------------------------
  // The variable table
  // ---------------------------------------------------------------------

  /** is_valid_double: non-empty, and strtod consumes all of it. */
  predicate IsValidDouble(s: string, c: Libc)
  {
    c.strtodEnd(s) == |s| && c.strtodEnd(s) != 0
  }

  /** is_valid_iso_datetime: strptime with DATE_FORMAT does not return NULL. */
  predicate IsValidIsoDatetime(s: string, c: Libc)
  {
    c.strptime(s).Some?
  }

  /** The type assign_variables_type gives a column: number before date-time before string. */
  function ColumnType(s: string, c: Libc): (t: DataType)
    ensures t == VarNumber <==> IsValidDouble(s, c)
    ensures t == VarDatetime <==> !IsValidDouble(s, c) && IsValidIsoDatetime(s, c)
    ensures t == VarString <==> !IsValidDouble(s, c) && !IsValidIsoDatetime(s, c)
  {
    if IsValidDouble(s, c) then VarNumber
    else if IsValidIsoDatetime(s, c) then VarDatetime
    else VarString
  }

  /** The variable table as the program starts: zero-initialised globals, no sentinel. */
  function Blank(): (t: seq<Variable>)
    ensures |t| == TableSlots && !HasEnd(t)
  {
    seq(TableSlots, _ => Variable([], VarUnknown, Unset))
  }

  /** assign_variables_name: column k is named names[k] and untyped; VAR_END follows the last. */
  function Named(names: seq<string>, t: seq<Variable>): (r: seq<Variable>)
    requires |names| < |t|
    ensures |r| == |t|
    ensures forall k :: 0 <= k < |names| ==> r[k].name == names[k] && r[k].vtype == VarUnknown
    ensures forall k :: 0 <= k < |t| ==> r[k].payload == t[k].payload
    ensures HasEnd(r) && EndIndex(r) == |names|
  {
    var r := seq(|t|, k requires 0 <= k < |t| =>
      if k < |names| then t[k].(name := names[k], vtype := VarUnknown)
      else if k == |names| then t[k].(vtype := VarEnd)
      else t[k]);
    assert r[|names|].vtype == VarEnd;
    r
  }

  /** assign_variables_type: column k takes the type of toks[k]; later slots keep theirs. */
  function Typed(toks: seq<string>, t: seq<Variable>, c: Libc): (r: seq<Variable>)
    requires |toks| <= |t|
    ensures |r| == |t|
    ensures forall k :: 0 <= k < |t| ==> r[k].name == t[k].name && r[k].payload == t[k].payload
    ensures forall k :: 0 <= k < |toks| ==> r[k].vtype == ColumnType(toks[k], c)
    ensures forall k :: |toks| <= k < |t| ==> r[k] == t[k]
  {
    seq(|t|, k requires 0 <= k < |t| => if k < |toks| then t[k].(vtype := ColumnType(toks[k], c)) else t[k])
  }

  /** Some column's type differs from the one toks gives it. */
  predicate TypeChanged(toks: seq<string>, t: seq<Variable>, c: Libc)
    requires |toks| <= |t|
  {
    exists k :: 0 <= k < |toks| && t[k].vtype != ColumnType(toks[k], c)
  }

  /** The switch of assign_variables_value for one slot. */
  function ValueOf(v: Variable, tok: string, c: Libc): Variable
  {
    match v.vtype
    case VarNumber => v.(payload := NumP(c.atof(tok)))
    case VarString => v.(payload := StrP(tok))
    case VarDatetime =>
      (match c.strptime(tok)
       case Some(time) => v.(payload := TimeP(time))
       case None => v)
    case _ => v
  }

  /**
   * assign_variables_value: the payload that matches each column's type is
   * set from its token (a date-time only when strptime parses it); names and
   * types are never touched, and untyped and sentinel slots not at all.
   */
  function Valued(toks: seq<string>, t: seq<Variable>, c: Libc): (r: seq<Variable>)
    requires |toks| <= |t|
    ensures |r| == |t|
    ensures forall k :: 0 <= k < |t| ==> r[k].name == t[k].name && r[k].vtype == t[k].vtype
    ensures forall k :: 0 <= k < |t| && (k >= |toks| || t[k].vtype in {VarUnknown, VarEnd, VarIdx}) ==> r[k] == t[k]
    ensures forall k :: 0 <= k < |toks| && t[k].vtype == VarNumber ==> r[k].payload == NumP(c.atof(toks[k]))
    ensures forall k :: 0 <= k < |toks| && t[k].vtype == VarString ==> r[k].payload == StrP(toks[k])
    ensures forall k :: 0 <= k < |toks| && t[k].vtype == VarDatetime ==>
      r[k].payload == (match c.strptime(toks[k]) case Some(time) => TimeP(time) case None => t[k].payload)
  {
    seq(|t|, k requires 0 <= k < |t| => if k < |toks| then ValueOf(t[k], toks[k], c) else t[k])
  }

  /**
   * Typing the first data row keeps the VAR_END sentinel after the header's
   * columns exactly when that row is no wider than the header.
   */
  lemma FirstRowKeepsEnd(names: seq<string>, toks: seq<string>, c: Libc)
    requires |names| < TableSlots && |toks| < TableSlots
    ensures var typed := Typed(toks, Named(names, Blank()), c);
      (HasEnd(typed) <==> |toks| <= |names|)
      && (|toks| <= |names| ==> EndIndex(typed) == |names|)
  {
    var named := Named(names, Blank());
    var typed := Typed(toks, named, c);
    forall k | 0 <= k < TableSlots && k != |names|
      ensures named[k].vtype != VarEnd
    {
      if k > |names| {
        assert named[k] == Blank()[k];
      }
    }
    if |toks| <= |names| {
      assert typed[|names|].vtype == VarEnd;
      assert forall k :: 0 <= k < |names| ==> typed[k].vtype != VarEnd;
    } else {
      assert typed[|names|].vtype != VarEnd;
    }
  }

  // ---------------------------------------------------------------------
  // The filter
  // ---------------------------------------------------------------------

  /** Why process_csv stops early: the program exits, or the model leaves the table. */
  datatype Stop =
    | TableOverrun                   // the first data row is wider than the header
    | CompileFailed(error: CompileError)
    | ExecFailed(fault: Fault)

  /** The lines written to the output, and why the run ended early, if it did. */
  datatype CsvRun = CsvRun(written: seq<string>, stop: Option<Stop>)

  /** Lines written before a run. */
  function Then(w: seq<string>, r: CsvRun): CsvRun
  {
    CsvRun(w + r.written, r.stop)
  }

  /** Every line fits the 1024-byte buffer of fgets, its NUL included. */
  ghost predicate ShortLines(lines: seq<string>)
  {
    forall k :: 0 <= k < |lines| ==> |lines[k]| < MaxLineItems
  }

  /** The table after the header has named the columns and the first data row has typed them. */
  function FirstTable(lines: seq<string>, d: char, c: Libc): seq<Variable>
    requires |lines| >= 2 && ShortLines(lines)
  {
    var names := LineTokens(lines[0], d);
    Typed(LineTokens(lines[1], d), Named(names, Blank()), c)
  }

  /**
   * The data rows after the first compile: each row sets the payloads of
   * the table (payloads of columns it lacks stay as the last row left them),
   * runs the program, and is copied when the program yields true.
   */
  function Rows(prog: seq<Instr>, rows: seq<string>, t: seq<Variable>, d: char, c: Libc): CsvRun
    requires |t| == TableSlots && ShortLines(rows)
    decreases |rows|
  {
    if rows == [] then CsvRun([], None)
    else
      var t' := Valued(LineTokens(rows[0], d), t, c);
      match Run(prog, t', 0, [], |prog|)
      case Err(f) => CsvRun([], Some(ExecFailed(f)))
      case Ok(keep) =>
        assert ShortLines(rows[1..]) by {
          forall k | 0 <= k < |rows| - 1 ensures |rows[1..][k]| < MaxLineItems {
            assert rows[1..][k] == rows[k + 1];
          }
        }
        Then(if keep then [rows[0]] else [], Rows(prog, rows[1..], t', d, c))
  }

  /**
   * process_csv on a file of lines: the header is always copied and names
   * the columns; the first data row types them and the expression is
   * compiled, once, against the columns so typed; then every data row is
   * filtered by the compiled program.
   */
  function Process(lines: seq<string>, d: char, c: Libc, expr: string): CsvRun
    requires ShortLines(lines)
  {
    if lines == [] then CsvRun([], None)
    else if |lines| == 1 then CsvRun([lines[0]], None)
    else
      var typed := FirstTable(lines, d, c);
      if !HasEnd(typed) then CsvRun([lines[0]], Some(TableOverrun))
      else match Compilation.Compile(expr, typed)
        case Err(e) => CsvRun([lines[0]], Some(CompileFailed(e)))
        case Ok((_, prog)) =>
          assert ShortLines(lines[1..]) by {
            forall k | 0 <= k < |lines| - 1 ensures |lines[1..][k]| < MaxLineItems {
              assert lines[1..][k] == lines[k + 1];
            }
          }
          Then([lines[0]], Rows(prog, lines[1..], typed, d, c))
  }

  /** The globals of fcsv.c: the delimiter and the token and variable tables. */
  class CsvTable {
    const delimiter: char
    const tokens: array<Option<string>>
    const variables: array<Variable>

    constructor (delimiter: char)
      ensures this.delimiter == delimiter
      ensures tokens.Length == TableSlots && variables.Length == TableSlots
      ensures fresh(tokens) && fresh(variables)
      ensures variables[..] == Blank()
    {
      this.delimiter := delimiter;
      tokens := new Option<string>[TableSlots](_ => None);
      variables := new Variable[TableSlots](_ => Variable([], VarUnknown, Unset));
      new;
      assert variables[..] == Blank();
    }

    /**
     * tokenize_line: cut the line at every delimiter, trim every piece, and
     * put NULL after the last one.  Slots after that NULL are not touched.
     */
    method TokenizeLine(line: string)
      requires tokens.Length == TableSlots && |line| < MaxLineItems
      modifies tokens
      ensures Holds(tokens[..], LineTokens(line, delimiter))
      ensures forall k :: |LineTokens(line, delimiter)| < k < TableSlots ==> tokens[k] == old(tokens[k])
    {
      var count := CutFields(line);
      TrimTokens(count, Fields(line, delimiter));
      tokens[count] := None;
    }

    /** The first loop of tokenize_line: one token per piece between delimiters, untrimmed. */
    method CutFields(line: string) returns (count: nat)
      requires tokens.Length == TableSlots && |line| < MaxLineItems
      modifies tokens
      ensures count == |Fields(line, delimiter)| < TableSlots
      ensures forall k :: 0 <= k < count ==> tokens[k] == Some(Fields(line, delimiter)[k])
      ensures forall k :: count <= k < TableSlots ==> tokens[k] == old(tokens[k])
    {
      ghost var fs := Fields(line, delimiter);
      ghost var cut: seq<string> := [];
      count := 0;
      var start := 0;
      var end := FindFrom(line, start, delimiter);
      while end < |line|
        invariant start <= |line| && end == FindFrom(line, start, delimiter)
        invariant count == |cut| <= start
        invariant cut + FieldsFrom(line, start, delimiter) == fs
        invariant forall k :: 0 <= k < count ==> tokens[k] == Some(cut[k])
        invariant forall k :: count <= k < TableSlots ==> tokens[k] == old(tokens[k])
        decreases |line| - start
      {
        CutOne(line, start, delimiter, cut, fs);
        Store(count, line[start..end], cut);
        cut := cut + [line[start..end]];
        count := count + 1;
        start := end + 1;
        end := FindFrom(line, start, delimiter);
      }
      CutLast(line, start, delimiter, cut, fs);
      Store(count, line[start..], cut);
      count := count + 1;
    }

    /** tokens[count++] = start: the next token goes after the count already cut. */
    method Store(count: nat, token: string, ghost cut: seq<string>)
      requires tokens.Length == TableSlots && count == |cut| < TableSlots
      requires forall k :: 0 <= k < count ==> tokens[k] == Some(cut[k])
      modifies tokens
      ensures forall k :: 0 <= k <= count ==> tokens[k] == Some((cut + [token])[k])
      ensures forall k :: count < k < TableSlots ==> tokens[k] == old(tokens[k])
    {
      tokens[count] := Some(token);
    }

    /** The second loop of tokenize_line: trim each of the first count tokens in place. */
    method TrimTokens(count: nat, ghost fs: seq<string>)
      requires tokens.Length == TableSlots && count == |fs| < TableSlots
      requires forall k :: 0 <= k < count ==> tokens[k] == Some(fs[k])
      modifies tokens
      ensures forall k :: 0 <= k < count ==> tokens[k] == Some(Trim(fs[k]))
      ensures forall k :: count <= k < TableSlots ==> tokens[k] == old(tokens[k])
    {
      for i := 0 to count
        invariant forall k :: 0 <= k < i ==> tokens[k] == Some(Trim(fs[k]))
        invariant forall k :: i <= k < count ==> tokens[k] == Some(fs[k])
        invariant forall k :: count <= k < TableSlots ==> tokens[k] == old(tokens[k])
      {
        var trimmed := TrimWhitespace(tokens[i].value);
        tokens[i] := Some(trimmed);
      }
    }

    /**
     * assign_variables_name: walk the tokens up to NULL, naming and untyping
     * each column, and mark the slot after the last with VAR_END.
     */
    method AssignVariablesName(ghost toks: seq<string>)
      requires variables.Length == tokens.Length && Holds(tokens[..], toks)
      modifies variables
      ensures variables[..] == Named(toks, old(variables[..]))
    {
      var index := 0;
      while tokens[index].Some?
        invariant index <= |toks|
        invariant forall k :: 0 <= k < index ==> variables[k] == old(variables[k]).(name := toks[k], vtype := VarUnknown)
        invariant forall k :: index <= k < variables.Length ==> variables[k] == old(variables[k])
        decreases |toks| - index
      {
        variables[index] := variables[index].(name := tokens[index].value, vtype := VarUnknown);
        index := index + 1;
      }
      variables[index] := variables[index].(vtype := VarEnd);
    }

    /**
     * assign_variables_type: type every column by its token; the answer is
     * whether any column's type changed.
     */
    method AssignVariablesType(ghost toks: seq<string>, c: Libc) returns (changed: bool)
      requires variables.Length == tokens.Length && Holds(tokens[..], toks)
      modifies variables
      ensures variables[..] == Typed(toks, old(variables[..]), c)
      ensures changed <==> TypeChanged(toks, old(variables[..]), c)
    {
      changed := false;
      var index := 0;
      while tokens[index].Some?
        invariant index <= |toks|
        invariant forall k :: 0 <= k < index ==> variables[k] == old(variables[k]).(vtype := ColumnType(toks[k], c))
        invariant forall k :: index <= k < variables.Length ==> variables[k] == old(variables[k])
        invariant changed <==> exists k :: 0 <= k < index && old(variables[k]).vtype != ColumnType(toks[k], c)
        decreases |toks| - index
      {
        var token := tokens[index].value;
        var vtype;
        if IsValidDouble(token, c) {
          vtype := VarNumber;
        } else if IsValidIsoDatetime(token, c) {
          vtype := VarDatetime;
        } else {
          vtype := VarString;
        }
        if variables[index].vtype != vtype {
          changed := true;
        }
        variables[index] := variables[index].(vtype := vtype);
        index := index + 1;
      }
    }

    /** assign_variables_value: set every column's payload from its token, as its type says. */
    method AssignVariablesValue(ghost toks: seq<string>, c: Libc)
      requires variables.Length == tokens.Length && Holds(tokens[..], toks)
      modifies variables
      ensures variables[..] == Valued(toks, old(variables[..]), c)
    {
      var index := 0;
      while tokens[index].Some?
        invariant index <= |toks|
        invariant forall k :: 0 <= k < index ==> variables[k] == ValueOf(old(variables[k]), toks[k], c)
        invariant forall k :: index <= k < variables.Length ==> variables[k] == old(variables[k])
        decreases |toks| - index
      {
        var token := tokens[index].value;
        var v := variables[index];
        match v.vtype {
          case VarNumber =>
            variables[index] := v.(payload := NumP(c.atof(token)));
          case VarString =>
            variables[index] := v.(payload := StrP(token));
          case VarDatetime =>
            var time := c.strptime(token);
            if time.Some? {
              variables[index] := v.(payload := TimeP(time.value));
            }
          case _ =>
        }
        index := index + 1;
      }
    }
  }

  // ---------------------------------------------------------------------
  // process_csv
  // ---------------------------------------------------------------------

  /**
   * process_csv over the lines of the input file: what it writes, and why
   * it stops early if it does.
   */
  method ProcessCsv(lines: seq<string>, d: char, c: Libc, expr: string) returns (out: CsvRun)
    requires ShortLines(lines)
    ensures out == Process(lines, d, c, expr)
  {
    if lines == [] {
      return CsvRun([], None);
    }
    if |lines| == 1 {
      var _ := ReadHeader(lines[0], d);
      return CsvRun([lines[0]], None);
    }
    var table := ReadHeader(lines[0], d);
    TypeFirstRow(table, lines[1], c);
    assert table.variables[..] == FirstTable(lines, d, c);
    if !HasEnd(table.variables[..]) {
      return CsvRun([lines[0]], Some(TableOverrun));
    }
    var compiler := new Compilation.Compiler(0);
    var r;
    ghost var tree;
    r, tree := compiler.ParseExpression(expr, table.variables[..]);
    if r.Err? {
      return CsvRun([lines[0]], Some(CompileFailed(r.error)));
    }
    out := FilterRows(table, r.value, lines, c);
  }

  /** The header: tokenized, then naming the columns of a fresh table. */
  method ReadHeader(header: string, d: char) returns (table: CsvTable)
    requires |header| < MaxLineItems
    ensures fresh(table.tokens) && fresh(table.variables) && table.delimiter == d
    ensures table.tokens.Length == TableSlots && table.variables.Length == TableSlots
    ensures table.variables[..] == Named(LineTokens(header, d), Blank())
  {
    table := new CsvTable(d);
    table.TokenizeLine(header);
    table.AssignVariablesName(LineTokens(header, d));
  }

  /** The first data row: tokenized, then typing the columns. */
  method TypeFirstRow(table: CsvTable, row: string, c: Libc)
    requires |row| < MaxLineItems
    requires table.tokens.Length == TableSlots && table.variables.Length == TableSlots
    modifies table.tokens, table.variables
    ensures Holds(table.tokens[..], LineTokens(row, table.delimiter))
    ensures table.variables[..] == Typed(LineTokens(row, table.delimiter), old(table.variables[..]), c)
  {
    table.TokenizeLine(row);
    var _ := table.AssignVariablesType(LineTokens(row, table.delimiter), c);
  }

  /** The loop of process_csv over the data rows, once the program is compiled. */
  method FilterRows(table: CsvTable, prog: seq<Instr>, lines: seq<string>, c: Libc) returns (out: CsvRun)
    requires |lines| >= 2 && ShortLines(lines)
    requires table.tokens.Length == TableSlots && table.variables.Length == TableSlots
    requires Holds(table.tokens[..], LineTokens(lines[1], table.delimiter))
    modifies table.tokens, table.variables
    ensures out == Then([lines[0]], Rows(prog, lines[1..], old(table.variables[..]), table.delimiter, c))
  {
    ghost var goal := Then([lines[0]], Rows(prog, lines[1..], table.variables[..], table.delimiter, c));
    out := CsvRun([lines[0]], None);
    var i := 1;
    while i < |lines|
      invariant 1 <= i <= |lines|
      invariant i == 1 ==> Holds(table.tokens[..], LineTokens(lines[1], table.delimiter))
      invariant out.stop == None && ShortLines(lines[i..])
      invariant Then(out.written, Rows(prog, lines[i..], table.variables[..], table.delimiter, c)) == goal
    {
      if i > 1 {
        table.TokenizeLine(lines[i]);
      }
      out := FilterRow(table, prog, lines, i, out, c);
      if out.stop.Some? {
        return;
      }
      i := i + 1;
    }
  }

  /** One turn of the loop of process_csv, from the row's tokens to what the run writes. */
  method FilterRow(table: CsvTable, prog: seq<Instr>, lines: seq<string>, i: nat, out: CsvRun, c: Libc)
    returns (out': CsvRun)
    requires i < |lines| && ShortLines(lines[i..]) && out.stop == None
    requires table.tokens.Length == TableSlots && table.variables.Length == TableSlots
    requires Holds(table.tokens[..], LineTokens(lines[i], table.delimiter))
    modifies table.variables
    ensures ShortLines(lines[i + 1..])
    ensures out'.stop == None ==>
      Then(out'.written, Rows(prog, lines[i + 1..], table.variables[..], table.delimiter, c))
      == Then(out.written, Rows(prog, lines[i..], old(table.variables[..]), table.delimiter, c))
    ensures out'.stop != None ==> out' == Then(out.written, Rows(prog, lines[i..], old(table.variables[..]), table.delimiter, c))
  {
    RowsAt(prog, lines, i, table.variables[..], table.delimiter, c);
    var keep := SelectRow(table, prog, lines[i], c);
    if keep.Err? {
      return CsvRun(out.written, Some(ExecFailed(keep.error)));
    }
    var rest := Rows(prog, lines[i + 1..], table.variables[..], table.delimiter, c);
    if keep.value {
      ThenThen(out.written, [lines[i]], rest);
      out' := CsvRun(out.written + [lines[i]], None);
    } else {
      ThenThen(out.written, [], rest);
      out' := out;
    }
  }

  /** Rows at row i: the row's own outcome, then the rows after it over the table it leaves. */
  lemma RowsAt(prog: seq<Instr>, lines: seq<string>, i: nat, t: seq<Variable>, d: char, c: Libc)
    requires i < |lines| && ShortLines(lines[i..]) && |t| == TableSlots
    ensures ShortLines(lines[i + 1..])
    ensures var t' := Valued(LineTokens(lines[i], d), t, c);
      Rows(prog, lines[i..], t, d, c)
      == match Run(prog, t', 0, [], |prog|)
         case Err(f) => CsvRun([], Some(ExecFailed(f)))
         case Ok(keep) => Then(if keep then [lines[i]] else [], Rows(prog, lines[i + 1..], t', d, c))
  {
    assert lines[i..][0] == lines[i] && lines[i..][1..] == lines[i + 1..];
  }

  /** Writing w and then x before a run is writing w + x before it. */
  lemma ThenThen(w: seq<string>, x: seq<string>, r: CsvRun)
    ensures Then(w, Then(x, r)) == Then(w + x, r)
  {
    assert w + (x + r.written) == (w + x) + r.written;
  }

  /** One data row: set the payloads from its tokens, then run the program over the table. */
  method SelectRow(table: CsvTable, prog: seq<Instr>, line: string, c: Libc) returns (keep: Result<bool, Fault>)
    requires table.tokens.Length == TableSlots && table.variables.Length == TableSlots
    requires |line| < MaxLineItems && Holds(table.tokens[..], LineTokens(line, table.delimiter))
    modifies table.variables
    ensures table.variables[..] == Valued(LineTokens(line, table.delimiter), old(table.variables[..]), c)
    ensures keep == Run(prog, table.variables[..], 0, [], |prog|)
  {
    table.AssignVariablesValue(LineTokens(line, table.delimiter), c);
    keep := ExecuteCode(prog, table.variables[..], |prog|);
  }

  // ---------------------------------------------------------------------
  // Properties of the filter
  // ---------------------------------------------------------------------

  /** a is b with some elements left out, in the same order. */
  predicate Subsequence(a: seq<string>, b: seq<string>)
    decreases |b|
  {
    a == [] || (b != [] && ((a[0] == b[0] && Subsequence(a[1..], b[1..])) || Subsequence(a, b[1..])))
  }

  /** The header is always written, before anything else. */
  lemma HeaderIsCopied(lines: seq<string>, d: char, c: Libc, expr: string)
    requires ShortLines(lines) && lines != []
    ensures var w := Process(lines, d, c, expr).written; w != [] && w[0] == lines[0]
  {
  }

  /** The rows written are data rows, in file order, each at most once. */
  lemma {:induction false} RowsInOrder(prog: seq<Instr>, rows: seq<string>, t: seq<Variable>, d: char, c: Libc)
    requires |t| == TableSlots && ShortLines(rows)
    ensures Subsequence(Rows(prog, rows, t, d, c).written, rows)
    decreases |rows|
  {
    if rows != [] {
      var t' := Valued(LineTokens(rows[0], d), t, c);
      var run := Run(prog, t', 0, [], |prog|);
      if run.Ok? {
        assert ShortLines(rows[1..]);
        var rest := Rows(prog, rows[1..], t', d, c);
        RowsInOrder(prog, rows[1..], t', d, c);
        var w := Rows(prog, rows, t, d, c).written;
        if run.value {
          assert w == [rows[0]] + rest.written;
          assert w[1..] == rest.written;
        } else {
          assert w == rest.written;
          if w != [] {
            assert Subsequence(w, rows[1..]);
          }
        }
      }
    }
  }

  /** Everything written is a line of the input, in the input's order. */
  lemma WrittenInFileOrder(lines: seq<string>, d: char, c: Libc, expr: string)
    requires ShortLines(lines)
    ensures Subsequence(Process(lines, d, c, expr).written, lines)
  {
    if |lines| >= 2 && HasEnd(FirstTable(lines, d, c)) && Compilation.Compile(expr, FirstTable(lines, d, c)).Ok? {
      var prog := Compilation.Compile(expr, FirstTable(lines, d, c)).value.1;
      assert ShortLines(lines[1..]);
      RowsInOrder(prog, lines[1..], FirstTable(lines, d, c), d, c);
      var w := Process(lines, d, c, expr).written;
      assert w[1..] == Rows(prog, lines[1..], FirstTable(lines, d, c), d, c).written;
    } else if lines != [] {
      var w := Process(lines, d, c, expr).written;
      assert w == [lines[0]] && w[1..] == [];
    }
  }

  /** A program whose jumps all go forward never exhausts the fuel of |program| steps, on any row. */
  lemma {:induction false} RowsNeverOutOfFuel(prog: seq<Instr>, rows: seq<string>, t: seq<Variable>, d: char, c: Libc)
    requires |t| == TableSlots && ShortLines(rows) && JumpsForward(prog, 0)
    ensures Rows(prog, rows, t, d, c).stop != Some(ExecFailed(OutOfFuel))
    decreases |rows|
  {
    if rows != [] {
      var t' := Valued(LineTokens(rows[0], d), t, c);
      ForwardProgramsStop(prog, t', 0, [], |prog|);
      if Run(prog, t', 0, [], |prog|).Ok? {
        assert ShortLines(rows[1..]);
        RowsNeverOutOfFuel(prog, rows[1..], t', d, c);
      }
    }
  }

  /** With the program parse_expression produces, the filter never stops for lack of fuel. */
  lemma FilterNeverOutOfFuel(lines: seq<string>, d: char, c: Libc, expr: string)
    requires ShortLines(lines)
    ensures Process(lines, d, c, expr).stop != Some(ExecFailed(OutOfFuel))
  {
    if |lines| >= 2 && HasEnd(FirstTable(lines, d, c)) && Compilation.Compile(expr, FirstTable(lines, d, c)).Ok? {
      assert ShortLines(lines[1..]);
      RowsNeverOutOfFuel(Compilation.Compile(expr, FirstTable(lines, d, c)).value.1, lines[1..], FirstTable(lines, d, c), d, c);
    }
  }

  // ---------------------------------------------------------------------
  // The size of the tables
  // ---------------------------------------------------------------------

  /** The number of slots tokens[] and variables[] have in fcsv.c. */
  const AsWrittenSlots: nat := MaxLineItems

  /**
   * tokenize_line writes NULL at tokens[count] and assign_variables_name
   * VAR_END at variables[count], count being the number of fields: with
   * the tables as written that is in bounds only for fewer fields than slots.
   */
  predicate FitsAsWritten(line: string, d: char)
  {
    |Fields(line, d)| < AsWrittenSlots
  }

  /** A string made only of the delimiter holds as many delimiters as characters. */
  lemma {:induction false} AllDelimiters(s: string, d: char)
    requires forall k :: 0 <= k < |s| ==> s[k] == d
    ensures multiset(s)[d] == |s|
  {
    if s != [] {
      AllDelimiters(s[1..], d);
      assert s == [s[0]] + s[1..];
    }
  }

  /**
   * A line of 1023 delimiters fits the 1024-byte buffer of fgets, yet has
   * 1024 fields: the NULL after them falls one past the end of tokens[].
   */
  lemma WidestLineOverflows()
    ensures var line := seq(MaxLineItems - 1, _ => ',');
      |line| < MaxLineItems && |Fields(line, ',')| == AsWrittenSlots && !FitsAsWritten(line, ',')
  {
    var line := seq(MaxLineItems - 1, _ => ',');
    AllDelimiters(line, ',');
    FieldsCount(line, 0, ',');
    assert line[0..] == line;
  }

  /** With one more slot, the tokens of every line fgets can return fit, NULL included. */
  lemma TokensAlwaysFit(line: string, d: char)
    requires |line| < MaxLineItems
    ensures |Fields(line, d)| < TableSlots
  {
    FieldsCount(line, 0, d);
    assert line[0..] == line;
    assert multiset(line)[d] <= |line|;
  }
}
