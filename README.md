# fcsv core in Dafny

fcsv filters a CSV file with an expression. The first line is the header: it is
copied to the output and names the columns. The first data row decides each
column's type: number, ISO date-time or string. The expression, for example
`price > 10 & name = 'apple' ? 1 : 0`, is compiled once against that typed
column table into code for a small stack machine. That program then runs once
per data row, and the row is copied to the output when the result is non-zero.

The project models the parts of the C sources that do this work:

- `text.dfy` (module `Text`): the whitespace trimming shared by `trim_whitespace`
  and `tokenize_line`.
- `exec_defs.dfy` (module `ExecDefs`): the opcodes, variable types, variables and
  instructions of `hdr/exec.h`.
- `expr_lexer.dfy` (module `ExprLexer`): the lexer of `src/expr.c` (`set_token`,
  `next_token_str`, `next_token`). Each is a function of the expression text and
  a cursor, and the scanning loops are proved against those functions.
  The operator probe of `next_token` skips "+" as written (`LexAsWritten`, the
  probe starting at `op_symbols[1]`). `Lex` takes the probe start as a
  parameter, and the rest of the model uses the corrected start 0; see "Findings".
- `expr_syntax.dfy` (module `ExprSyntax`): one grammar tree per `parse_*` level.
  For each tree it gives the tokens it spans and the code the compiler emits for
  it, and it proves that every emitted jump goes forward.
- `expr.dfy` (module `Expr`): the recursive-descent compiler, twice. First as
  functions (`Parsed*`, `Compile`) of a `Parser` state: the text, the
  variables, the probe start, the current token, the cursor and the code so
  far. Each returns the grammar tree it read and the new state, or the error
  that stops the compiler, and each proves that the code it appended is that
  tree's code. Then as a `Compiler` class whose fields are the globals of
  `src/expr.c`: the cursor, the current token, the code array and its size.
  Each `Parse*` method computes its function on the state, success or error,
  and consumes exactly the tokens of the tree it returns. `ParseExpression`
  returns exactly what `Compile` returns.
- `exec.dfy` (module `Exec`): `execute_code`, as a `Step`/`Run` meaning and a
  loop over a stack array proved to compute it. C undefined behaviour and every
  `exit(EXIT_FAILURE)` become explicit `Fault`s.
- `csv.dfy` (module `Csv`): `tokenize_line`, the three `assign_variables_*`
  passes over the global `tokens[]` and `variables[]` tables (a `CsvTable`), and
  the row selection of `process_csv`, proved against the function `Process`.
- `conf.dfy` (module `Conf`): the per-line logic of `conf_read_file` over the
  lines `fgets` returns, and `conf_get`.
- `memtrack.dfy` (module `MemTrack`): the allocation tracker of `src/dmalloc.c`.
  It is a linked list of `MemNode` objects whose ghost spine is proved to match
  the list of records.
- `common.dfy` (module `Common`): `Option`, `Result` and `Outcome`.

The C library routines `strtod`, `atof` and `strptime` are parameters (`Csv.Libc`).
A pointer returned by `malloc` is a parameter of `MemTrack.Tracker.DebugMalloc`.

## Model

| member | source | states |
|---|---|---|
| Text.Trim | src/conf.c:23-40 | the result is the input without its leading and trailing white space: it is no longer than the input, it neither starts nor ends with white space, it is empty exactly when the input is all white space, and it is the stretch between the leading and the trailing white space |
| Text.TrimWhitespace | src/conf.c:23-40 | the two scanning loops compute Trim |
| Text.TrimOfTrimmed | src/fcsv.c:59-67 | a string that neither starts nor ends with white space is left as it is |
| Text.TrimIdempotent | src/conf.c:23-40 | trimming twice is trimming once |
| Text.IsSpace | src/conf.c:27 | isspace in the C locale: space, tab, newline, vertical tab, form feed and carriage return (a definition, used by every trim and skip) |
| Text.SkipSpaces | src/conf.c:56-58 | the first index at or after the start that is not white space: everything skipped is white space, and it stops at the end or at a character that is not |
| Conf.IndexOf | src/conf.c:82 | strchr: the first index of the character, or the length when there is none |
| Conf.SplitEntry | src/conf.c:82-90 | a logical line gives no entry exactly when it holds no '=' |
| Conf.Skipped | src/conf.c:55-61 | a line is skipped exactly when, after its leading white space, it is empty or starts with '#' (a definition) |
| Conf.Continues | src/conf.c:62-68 | a line continues exactly when the character before its last one (the newline) is a backslash (a definition) |
| Conf.Piece | src/conf.c:64-68 | what a line adds to the logical line has the line's length: only the continuation backslash becomes a space |
| Conf.ReadStep | src/conf.c:55-121 | one line adds at most one entry; a skipped line changes nothing; a continued line only grows the pending logical line; any other line ends it, clears it, and adds an entry exactly when the logical line holds '=' |
| Conf.Scan | src/conf.c:54-122 | the reading loop, given a pending logical line, adds at most one entry per line |
| Conf.Carry | src/conf.c:70-121 | the logical line still pending after the lines, built by a trailing run of continued lines (a definition, used by ScanConcat and EntriesConcat) |
| Conf.Entries | src/conf.c:54-122 | a file has at most as many entries as lines |
| Conf.Config.constructor | src/conf.c:49 | the table starts empty |
| Conf.Config.Append | src/conf.c:92-113 | the entry table grows by exactly the new (key, value) pair, at the end |
| Conf.Config.ConfGet | src/conf.c:147-156 | None exactly when no key equals the requested one; otherwise the value of the first entry whose key equals it |
| Conf.ConfReadFile | src/conf.c:54-122 | the entries read are exactly Entries of the file's lines, in file order |
| Conf.ReadLine | src/conf.c:55-121 | one line appends exactly the entries its ReadStep produces and leaves its pending logical line |
| Conf.SkippedLinesAddNothing | src/conf.c:55-61 | blank and '#' lines change neither the entries nor a pending continuation |
| Conf.ContinuedLinesAreJoined | src/conf.c:64-80 | a line ending in backslash-newline is glued, without its leading spaces and with the backslash turned into a space, to the lines after it |
| Conf.OneLineOneEntry | src/conf.c:82-117 | a key = value line is one entry: the trimmed text before the first '=' and the trimmed text after it, which may hold more '=' |
| Conf.NoEqualsNoEntries | src/conf.c:82-83 | a file with no '=' anywhere has no entries |
| Conf.ScanConcat | src/conf.c:54-122 | reading a file in two pieces gives the entries of the first piece, then those of the second, which continues the logical line the first piece left pending |
| Conf.EntriesConcat | src/conf.c:54-122 | a file whose first piece ends outside a continuation reads as the concatenation of its pieces' entries |
| Csv.FindFrom | src/fcsv.c:52 | strchr from a position: the first delimiter at or after it, or the end of the line |
| Csv.FieldsCount | src/fcsv.c:52-57 | a line has one field more than it has delimiters |
| Csv.FieldsHaveNoDelimiter | src/fcsv.c:52-56 | no field holds the delimiter |
| Csv.JoinFields | src/fcsv.c:47-57 | joining the fields with the delimiter gives back the line: nothing is lost or reordered |
| Csv.FieldsOfJoin | src/fcsv.c:47-57 | splitting a join of delimiter-free fields gives back those fields |
| Csv.LineTokens | src/fcsv.c:47-69 | the tokens of a line are its fields, each trimmed, and there are at most one more of them than the line has characters |
| Csv.Holds | src/fcsv.c:47-69 | the token table holds the tokens in order followed by the NULL that ends them (a definition) |
| Csv.ColumnType | src/fcsv.c:94-105 | number exactly when strtod consumes the whole non-empty token; otherwise date-time exactly when strptime accepts it; otherwise string |
| Csv.IsValidDouble | src/fcsv.c:71-75 | is_valid_double: the token is non-empty and strtod consumes all of it (a definition over the library's strtod) |
| Csv.IsValidIsoDatetime | src/fcsv.c:77-80 | is_valid_iso_datetime: strptime accepts the token (a definition over the library's strptime) |
| Csv.Blank | src/fcsv.c:43-45 | the zero-initialised variable table has every slot and no VAR_END |
| Csv.Named | src/fcsv.c:82-89 | each header token names its column, whose type becomes VAR_UNKNOWN; VAR_END follows the last column; payloads are untouched |
| Csv.Typed | src/fcsv.c:91-109 | each column the row reaches takes ColumnType of its token; names and payloads are kept, and the columns beyond the row are untouched |
| Csv.Valued | src/fcsv.c:111-132 | names and types are kept; numbers take atof of their token, strings take the token, and date-times take what strptime parses from it, or keep their payload when it fails; columns beyond the row, and columns of type VAR_UNKNOWN or VAR_END, are left as they were |
| Csv.ValueOf | src/fcsv.c:113-130 | the switch for one slot: a number takes atof of the token, a string the token, a date-time what strptime parses or nothing when it fails; other slots are untouched (a definition; Valued states it for the whole table) |
| Csv.FirstRowKeepsEnd | src/fcsv.c:82-109 | after the header and the first row, VAR_END stays right after the header's columns exactly when the first row is no wider than the header |
| Csv.CsvTable.constructor | src/fcsv.c:43-45 | both tables have every slot, and the variable table is Blank |
| Csv.CsvTable.TokenizeLine | src/fcsv.c:47-69 | tokens[] holds LineTokens of the line followed by NULL; the slots after the NULL are unchanged |
| Csv.CsvTable.CutFields | src/fcsv.c:52-57 | the first loop stores every field of the line, in order, and the count fits the table |
| Csv.CsvTable.TrimTokens | src/fcsv.c:59-67 | the second loop replaces every stored field by its trimmed form and nothing else |
| Csv.CsvTable.AssignVariablesName | src/fcsv.c:82-89 | the variable table becomes Named by the tokens |
| Csv.CsvTable.AssignVariablesType | src/fcsv.c:91-109 | the variable table becomes Typed by the tokens, and the result is true exactly when some column's type changed |
| Csv.CsvTable.AssignVariablesValue | src/fcsv.c:111-132 | the variable table becomes Valued by the tokens |
| Csv.FirstTable | src/fcsv.c:172-183 | the table once the header has named the columns and the first data row has typed them (a definition) |
| Csv.Rows | src/fcsv.c:175-194 | each data row sets the payloads, runs the program with the bound |prog|, and is written when the run yields true; a fault ends the run (a definition; RowsInOrder and RowsNeverOutOfFuel are proved over it) |
| Csv.Process | src/fcsv.c:164-194 | process_csv as a function of the lines, the delimiter and the expression: the header is written; after the first data row the expression is compiled once against FirstTable, and Rows filters every data row (a definition; HeaderIsCopied, WrittenInFileOrder and FilterNeverOutOfFuel are proved over it, and ProcessCsv computes it) |
| Csv.ProcessCsv | src/fcsv.c:164-194 | the lines written and the reason for any early stop are Process of the file and the expression: the header, then, once the first data row has typed the columns, Compile of the expression against them, and the rows its program selects |
| Csv.ReadHeader | src/fcsv.c:164-173 | a fresh table whose variables are Named by the header's tokens |
| Csv.TypeFirstRow | src/fcsv.c:180-184 | the tokens are those of the first data row, and the variables are Typed by them |
| Csv.FilterRows | src/fcsv.c:175-194 | the output is the header, then what Rows selects from the data rows |
| Csv.FilterRow | src/fcsv.c:176-194 | one row either continues the run as Rows does or ends it as Rows does |
| Csv.SelectRow | src/fcsv.c:188-191 | the variables take the row's values, and the verdict is Run of the program on them |
| Csv.HeaderIsCopied | src/fcsv.c:165-168 | whatever happens afterwards, the header is the first line written |
| Csv.RowsInOrder | src/fcsv.c:175-194 | the rows written are a subsequence of the data rows: each is written at most once, in file order |
| Csv.WrittenInFileOrder | src/fcsv.c:164-194 | the whole output is a subsequence of the input lines |
| Csv.RowsNeverOutOfFuel | src/fcsv.c:190 | a program whose jumps go forward never needs more steps than it has instructions, for any row |
| Csv.FilterNeverOutOfFuel | src/fcsv.c:182-190 | for every file and expression, the filter never runs out of the model's step bound, because the code Compile produces jumps only forward |
| Csv.WidestLineOverflows | src/fcsv.c:43-68 | a line of 1023 delimiters fits the fgets buffer, yet has 1024 fields, so the NULL after them falls outside a 1024-slot table |
| Csv.TokensAlwaysFit | src/fcsv.c:43-68 | every line fgets can return has fewer fields than the model's 1025 slots, so the NULL after them fits |
| ExecDefs.OpCode | hdr/exec.h:23-74 | the numbering of hdr/exec.h: generic opcodes 7-19, numeric 20-32, string 33-45 |
| ExecDefs.Trunc | src/exec.c:115 | the C cast of a double to int truncates toward zero |
| ExecDefs.HasEnd | src/expr.c:267 | a variable table holds a VAR_END sentinel, so a scan by name stops (a definition) |
| ExecDefs.EndIndex | src/expr.c:267 | the index of the first VAR_END: that slot is VAR_END and no slot before it is |
| Exec.Bit | src/exec.c:26-37 | a C truth value is 1 for true and 0 for false |
| Exec.Step | src/exec.c:106-188 | a successful instruction changes the stack depth by its StackEffect and, unless it is a jump, moves to the next instruction |
| Exec.Num | src/exec.c:114-124 | the number a stack entry holds: its value, or 0 for a variable the rows never gave a value (the zero-initialised table of src/fcsv.c:43-45); none for a string or a date |
| Exec.Compare | src/exec.c:142-159 | the six relational operators of the C code on two numbers (a definition) |
| Exec.RelResult | src/exec.c:26-37 | OP_VAR_TYPE: a right operand that is not a number gives the number 0; otherwise it fails exactly when an operand holds no number; a result is the number 1 when the comparison holds and 0 when it does not |
| Exec.BinaryResult | src/exec.c:122-170 | every result is a number, and outside the comparisons it keeps the left operand's type; "Division by zero!" exactly for DIV by 0; AND and OR give 0 or 1, AND of 0 is 0 and OR of a non-zero is 1 whatever the right operand |
| Exec.NotResult | src/exec.c:168-170 | NOT fails exactly on an entry without a number, keeps its type, and gives 1 exactly for 0 and 0 otherwise |
| Exec.StrEqResult | src/exec.c:179-183 | EQ_STR succeeds exactly on two strings and gives a number, 1 exactly when they are equal and 0 otherwise |
| Exec.StackEffect | src/exec.c:106-183 | every instruction changes the stack depth by -1, 0 or 1, and only the three pushes grow it |
| Exec.Finish | src/exec.c:191-196 | HALT with any number of entries other than one is "No results!"; a result is true exactly when the single entry's number is non-zero |
| Exec.ExecInstr | src/exec.c:106-188 | the switch on a stack array computes Step on the stack's contents |
| Exec.Run | src/exec.c:98-197 | the execute_code loop from an instruction and a stack: the overflow check before each instruction, one Step at a time within a step bound, and Finish at HALT (a definition; ExecuteCode computes it and ForwardProgramsStop bounds it) |
| Exec.ExecuteCode | src/exec.c:94-197 | the loop of execute_code over a fixed 1024-entry stack computes Run |
| Exec.StepMovesForward | src/exec.c:171-178 | in code whose jumps go forward, every successful instruction moves the instruction pointer forward and never past the end |
| Exec.ForwardProgramsStop | src/exec.c:98-189 | code whose jumps go forward stops within as many steps as it has instructions |
| Exec.CompiledProgramsStop | src/expr.c:399-426 | whatever parse_expression compiles stops within one step per instruction |
| Exec.LeadingMinusUnderflows | src/expr.c:238-246 | "- x" compiles to PUSH x then SUB with one operand on the stack, so it reads below the stack |
| Exec.ComparisonWithNonNumberIsZero | src/exec.c:26-37 | a comparison whose right operand is not a number yields 0 |
| Exec.ComparisonOfNumbers | src/exec.c:142-159 | a comparison with a number on the right yields 1 when it holds and 0 when it does not, a never-valued left operand counting as 0 |
| Exec.ArithmeticOnNumbers | src/exec.c:122-141 | arithmetic on numbers fails exactly on division by 0 ("Division by zero!"), keeps the left operand's type, and divides as expected |
| Exec.LogicalIsZeroOrOne | src/exec.c:160-170 | AND and OR of numbers yield 1 or 0 as the C operators do; NOT yields 1 exactly for 0 |
| Exec.StrEqMeansEqualStrings | src/exec.c:179-183 | EQ on strings succeeds exactly on two strings and yields 1 exactly when they are equal |
| Exec.JumpTargets | src/exec.c:171-178 | JP goes to its truncated target; JPZ pops the top and goes to its target exactly when the top is 0, and otherwise goes on |
| Exec.OverflowBeforeEveryInstruction | src/exec.c:100-104 | with 1014 entries or more on the stack, the next instruction is "Stack overflow!" |
| Exec.HaltNeedsOneResult | src/exec.c:191-196 | HALT succeeds exactly with one entry on the stack that is a number or a never-valued variable, and yields true exactly when its number is non-zero |
| Exec.UnhandledOpcodesAbort | src/exec.c:185-187 | the numeric and string opcodes other than EQ_STR are "Unknown op code!" |
| ExprLexer.RunEnd | src/expr.c:100-102 | the end of the maximal run of a character class |
| ExprLexer.SkipBlanks | src/expr.c:155-157 | the first position that is not blank, tab or newline |
| ExprLexer.FindChar | src/expr.c:136-138 | the first occurrence of the closing quote, or the end of the text |
| ExprLexer.OpSymbol | src/expr.c:66-87 | entry i of op_symbols with its token, in source order (a definition) |
| ExprLexer.DigitsValue | src/expr.c:120-124 | the decimal value of a run of digits, below 10 to the power of its length; the empty run is 0 |
| ExprLexer.StrtodRun | src/expr.c:120-124 | what strtod reads from a run of number characters: the digits [. digits] prefix, never negative |
| ExprLexer.ScanToken | src/expr.c:97-130 | a token read from position i ends within the text, at or after i |
| ExprLexer.ScanTokenSpansRun | src/expr.c:97-130 | fails with "String too long" exactly when the run is 31 characters or more; otherwise the token spans exactly the maximal run, and an identifier carries that run |
| ExprLexer.LexQuoted | src/expr.c:132-152 | fails exactly when there is no closing quote of the same kind; otherwise a string token, and the cursor moves past the closing quote |
| ExprLexer.OnlyLastEnds | src/expr.c:66-87 | in op_symbols, only the closing "" entry carries TOK_END |
| ExprLexer.Probe | src/expr.c:185-193 | an operator hit is never the end token and always consumes text |
| ExprLexer.Lex | src/expr.c:154-202 | next_token with the operator probe starting at a given op_symbols entry, by default op_symbols[0], which Csv.Process uses; the compiler as written starts at op_symbols[1]: the cursor never moves backwards, every token but the end token consumes text, and the end token is at the end of the text |
| ExprLexer.LexAsWritten | src/expr.c:185-193 | next_token as written, probing from op_symbols[1]; every token but the end token consumes text |
| ExprLexer.SetToken | src/expr.c:97-130 | the scanning loop computes ScanToken |
| ExprLexer.NextTokenStr | src/expr.c:132-152 | the quote search computes LexQuoted |
| ExprLexer.ProbeOperators | src/expr.c:185-193 | the op_symbols loop, started at a given entry (1 as written, 0 corrected), computes Probe from that entry |
| ExprLexer.NextTokenAt | src/expr.c:154-202 | next_token with the operator probe started at a given entry computes Lex with that start: as written with start 1, corrected with start 0 |
| ExprLexer.PlusIsUndefinedSymbol | src/expr.c:185-201 | as written, '+' is never reached in op_symbols, because the probe starts at the second entry, so it is "Undefined symbol" |
| ExprLexer.PlusIsAddition | src/expr.c:66-67 | with the corrected probe, '+' is the addition operator and takes one character |
| ExprLexer.AsWrittenDiffersOnlyOnPlus | src/expr.c:185-193 | the lexer as written and the corrected one agree at every position whose first non-blank character is not '+' |
| ExprLexer.TwoCharOperatorsWin | src/expr.c:66-87 | "!=", "<=" and ">=" are read as one operator, not as '!', '<' or '>' |
| ExprLexer.MalformedNumberAccepted | src/expr.c:120-124 | "1.2.3" is one number token, worth what strtod reads from it (1.2) |
| ExprLexer.EmptyIndexIsZero | src/expr.c:174-178 | '#' followed by no digit is the variable index 0 |
| ExprLexer.TrueIsAPrefixMatch | src/expr.c:185-198 | "true" is matched as a prefix, so it is the true token even when letters follow |
| ExprSyntax.FindVariable | src/expr.c:265-272 | the first variable before VAR_END whose name matches; -1 exactly when none does |
| ExprSyntax.NameMatches | src/expr.c:268 | strncmp over the identifier's length is 0: the variable's name begins with the identifier (a definition) |
| ExprSyntax.ExprTokens | src/expr.c:227-236 | the tokens of an expression tree in source order (a definition; the parse methods' consumed clauses and ChoiceTokens are stated with it) |
| ExprSyntax.ExprCode | src/expr.c:227-236 | the code emitted for an expression tree placed at a given index (a definition; ExprJumpsForward is proved over it) |
| ExprSyntax.CondCode | src/expr.c:372-397 | a conditional's code: the condition, JPZ to the false branch, the true branch, JP past the false branch, the false branch (a definition; CondJumpsForward and ChoiceLayout are proved over it) |
| ExprSyntax.ExprJumpsForward | src/expr.c:372-396 | every jump the compiler emits for an expression goes forward and stays within the code |
| ExprSyntax.CondJumpsForward | src/expr.c:372-396 | the JPZ and JP of a conditional go forward, to the false branch and past it |
| Expr.LookupVariable | src/expr.c:265-272 | the scan of the variable table computes FindVariable |
| Expr.StartsCond | src/expr.c:228-231 | the tokens with which parse_expr calls parse_cond_expr (a definition) |
| Expr.StartsFactor | src/expr.c:258-301 | the tokens parse_factor has a case for (a definition) |
| Expr.Patched | src/expr.c:394-395 | code[at].value = v: one operand replaced, its opcode kept (a definition) |
| Expr.BoolExprStep | src/expr.c:310-314 | the code and tokens appended for one more '\|' operand are those of the longer OR-chain |
| Expr.BoolTermStep | src/expr.c:319-323 | the code and tokens appended for one more '&' operand are those of the longer AND-chain |
| Expr.CompareStep | src/expr.c:362-369 | the code and tokens of two operands joined by a comparison operator are those of the relation |
| Expr.NotStep | src/expr.c:338-342 | the code and tokens of '!' and a factor are those of the negation: the factor's code, then NOT |
| Expr.ArithStep | src/expr.c:240-245 | the code and tokens appended for one more '+' or '-' operand are those of the longer sum |
| Expr.TermStep | src/expr.c:250-255 | the code and tokens appended for one more '*' or '/' operand are those of the longer product |
| Expr.CompiledCode | src/expr.c:420-425 | the final code is the tree's code followed by HALT, and all its jumps go forward |
| Expr.ChoiceStep | src/expr.c:377-395 | the two back-patched jumps of a conditional give exactly the conditional's code |
| Expr.ChoiceLayout | src/expr.c:377-395 | patching the JPZ with the start of the false branch and the JP with the end of the code turns what was emitted into the conditional's code |
| Expr.ChoiceTokens | src/expr.c:372-392 | the tokens consumed for a conditional are the condition's, '?', the true branch's, ':' and the false branch's |
| Expr.Advance | src/expr.c:154-202 | next_token on the compiler state: succeeds exactly when Lex does, keeps the text, the variables and the code, and consumes text unless the token was the end |
| Expr.Emitted | src/expr.c:204-217 | emit on the compiler state: appends the instruction exactly when the code stays below MAX_CODE_SIZE; otherwise "code array overflow" |
| Expr.EmittedThenAdvanced | src/expr.c:260-263 | emit, then next_token: one instruction appended, and text consumed |
| Expr.ParsedExpr | src/expr.c:227-236 | on success, what was appended is the code of the expression tree returned, and the tree is a conditional exactly when the token starts one |
| Expr.ParsedCond | src/expr.c:372-397 | on success, the code of the condition returned was appended; a plain condition is not followed by '?' |
| Expr.ParsedChoice | src/expr.c:374-396 | after '?', the code of the whole conditional, both jumps patched, follows the code before the condition |
| Expr.ParsedTrueBranch | src/expr.c:374-389 | '?', the true branch and ':' emit JPZ at the old end of the code, the branch's code, then JP, whose index is returned |
| Expr.ParsedYes | src/expr.c:380-389 | the true branch's code, then JP, whose index is returned |
| Expr.OpenedTrueBranch | src/expr.c:375-378 | '?' is consumed and the JPZ placeholder is emitted at the old end of the code |
| Expr.ClosedTrueBranch | src/expr.c:382-389 | the JP placeholder is emitted and ':' consumed; with room in the code, a token other than ':' is "Expected ':'" |
| Expr.ParsedBoolExpr | src/expr.c:308-315 | on success, the code of the OR-chain returned was appended, and the next token is not '\|' |
| Expr.BoolExprLoop | src/expr.c:310-314 | the loop of parse_bool_expr extends the chain left-associatively until the token is not '\|' |
| Expr.ParsedBoolExprOperand | src/expr.c:311-313 | one '\|' operand: its code, then OR, and text consumed |
| Expr.ParsedBoolTerm | src/expr.c:317-324 | on success, the code of the AND-chain returned was appended, and the next token is not '&' |
| Expr.BoolTermLoop | src/expr.c:319-323 | the loop of parse_bool_term extends the chain left-associatively until the token is not '&' |
| Expr.ParsedBoolTermOperand | src/expr.c:320-322 | one '&' operand: its code, then AND, and text consumed |
| Expr.ParsedBoolFactor | src/expr.c:326-358 | on success, the code of the factor returned was appended, and it is a relation exactly when the token is none of true, false, '!' and '(' |
| Expr.ParsedNegation | src/expr.c:338-342 | '!' and a factor: a negation whose code is the factor's, then NOT |
| Expr.ParsedRel | src/expr.c:360-370 | on success, the code of the relation returned was appended; a single operand is not followed by a comparison operator |
| Expr.ParsedRelOperand | src/expr.c:365-368 | a comparison operator and its right operand: the operand's code, then that operator |
| Expr.ParsedArith | src/expr.c:238-246 | on success, the code of the sum returned was appended, and the next token is neither '+' nor '-' |
| Expr.ArithLoop | src/expr.c:240-245 | the loop of parse_arithmetic_expr extends the sum left-associatively until the token is neither '+' nor '-' |
| Expr.ParsedArithOperand | src/expr.c:241-244 | one '+' or '-' operand: its code, then that operator |
| Expr.ParsedTerm | src/expr.c:248-256 | on success, the code of the product returned was appended, and the next token is neither '*' nor '/' |
| Expr.TermLoop | src/expr.c:250-255 | the loop of parse_term extends the product left-associatively until the token is neither '*' nor '/' |
| Expr.ParsedTermOperand | src/expr.c:251-254 | one '*' or '/' operand: its code, then that operator |
| Expr.ParsedFactor | src/expr.c:258-306 | on success, the code of the factor returned was appended; the factor is empty, with nothing consumed or emitted, exactly when the token starts none; an unknown name is "Undefined variable" |
| Expr.ParsedLeaf | src/expr.c:260-291 | a number, name, index or string is one token and one push instruction; an unknown name is "Undefined variable" |
| Expr.ParsedName | src/expr.c:265-281 | a name is pushed by the index FindVariable gives it, and is "Undefined variable" exactly when it finds none |
| Expr.ParsedSingle | src/expr.c:260-291 | one push instruction is appended and the token consumed |
| Expr.ParsedParen | src/expr.c:293-301 | '(' expression ')': the inner expression's code, and text consumed |
| Expr.UnclosedParenthesis | src/expr.c:293-299 | an expression after '(' that is not followed by ')' is "Expected ')'", in parse_factor as in parse_bool_factor |
| Expr.Compile | src/expr.c:399-426 | parse_expression as a function of the text, the variables and the probe start: on success the code is the tree's code followed by HALT, fits MAX_CODE_SIZE, and jumps only forward |
| Expr.PlusStopsAsWritten | src/expr.c:185-201 | with the probe starting at op_symbols[1], any '+' the parser reaches stops the compilation with "Undefined symbol '+'" |
| Expr.SumRefusedAsWritten | src/expr.c:185-201 | as written, "1+2" does not compile: "Undefined symbol '+'" |
| Expr.LeadingPlusRefusedAsWritten | src/expr.c:185-201 | as written, a leading '+' is refused, where the corrected lexer reads it as the addition operator |
| Expr.NumberFactor | src/expr.c:260-263 | a number pushes its value and reads the next token |
| Expr.SumTokens | src/expr.c:154-202 | "1+2" is the tokens 1, '+', 2 and the end |
| Expr.SumOperand | src/expr.c:240-245 | after "1", "+2" pushes 2 then emits OP_ADD |
| Expr.SumParsed | src/expr.c:238-246 | "1+2" parses as the sum of 1 and 2 |
| Expr.SumCompiled | src/expr.c:399-426 | with the corrected probe, "1+2" compiles to PUSH_NUM 1, PUSH_NUM 2, ADD, HALT |
| Expr.Compiler.constructor | src/expr.c:89-95 | an empty code buffer of MAX_CODE_SIZE instructions, with the given probe start |
| Expr.Compiler.NextToken | src/expr.c:154-202 | computes Advance on the compiler's state; the previous token is consumed; on failure nothing moves |
| Expr.Compiler.Emit | src/expr.c:204-217 | computes Emitted on the compiler's state, writing the code array; on overflow the code is unchanged |
| Expr.Compiler.Patch | src/expr.c:394-395 | sets one jump target and changes nothing else |
| Expr.Compiler.EmitThenAdvance | src/expr.c:260-263 | computes EmittedThenAdvanced |
| Expr.Compiler.ParseExpr | src/expr.c:227-236 | computes ParsedExpr, success or error, and consumes exactly the tokens of the tree |
| Expr.Compiler.ParseCondExpr | src/expr.c:372-397 | computes ParsedCond, and consumes exactly the tokens of the tree |
| Expr.Compiler.ParseChoice | src/expr.c:374-396 | computes ParsedChoice: the conditional's code with both jumps patched in the code array |
| Expr.Compiler.ParseTrueBranch | src/expr.c:375-389 | computes ParsedTrueBranch, and consumes '?', the branch and ':' |
| Expr.Compiler.OpenTrueBranch | src/expr.c:375-378 | computes OpenedTrueBranch |
| Expr.Compiler.CloseTrueBranch | src/expr.c:382-389 | computes ClosedTrueBranch, so a missing ':' is "Expected ':'" |
| Expr.Compiler.ParseBoolExpr | src/expr.c:308-315 | computes ParsedBoolExpr; the loop keeps BoolExprLoop of the chain so far equal to the function's result |
| Expr.Compiler.ParseBoolExprOperand | src/expr.c:311-313 | computes ParsedBoolExprOperand |
| Expr.Compiler.ParseBoolTerm | src/expr.c:317-324 | computes ParsedBoolTerm, with the same loop invariant over BoolTermLoop |
| Expr.Compiler.ParseBoolTermOperand | src/expr.c:320-322 | computes ParsedBoolTermOperand |
| Expr.Compiler.ParseParenthesized | src/expr.c:293-301 | computes ParsedParen, so a missing ')' is "Expected ')'" (UnclosedParenthesis) |
| Expr.Compiler.ParseBoolFactor | src/expr.c:326-358 | computes ParsedBoolFactor |
| Expr.Compiler.ParseNegation | src/expr.c:338-342 | computes ParsedNegation |
| Expr.Compiler.ParseRelExpr | src/expr.c:360-370 | computes ParsedRel |
| Expr.Compiler.ParseRelOperand | src/expr.c:365-368 | computes ParsedRelOperand |
| Expr.Compiler.ParseArithmeticExpr | src/expr.c:238-246 | computes ParsedArith, with the loop invariant over ArithLoop |
| Expr.Compiler.ParseArithmeticOperand | src/expr.c:241-244 | computes ParsedArithOperand |
| Expr.Compiler.ParseTerm | src/expr.c:248-256 | computes ParsedTerm, with the loop invariant over TermLoop |
| Expr.Compiler.ParseTermOperand | src/expr.c:251-254 | computes ParsedTermOperand |
| Expr.Compiler.ParseFactor | src/expr.c:258-306 | computes ParsedFactor |
| Expr.Compiler.ParseLeaf | src/expr.c:260-291 | computes ParsedLeaf, consuming one token |
| Expr.Compiler.ParseName | src/expr.c:265-281 | computes ParsedName, so an unknown name is "Undefined variable" |
| Expr.Compiler.ParseExpression | src/expr.c:399-426 | returns exactly what Compile returns for the text, the variables and the compiler's probe start, success or error; the tree's tokens lead the text |
| Expr.Compiler.Start | src/expr.c:414-420 | resets the compiler to the start of the text with the first token Lex gives, or fails with Lex's error |
| MemTrack.RemoveFirst | src/dmalloc.c:47-59 | removal shortens the list by one exactly when some record holds the pointer |
| MemTrack.RecordsOf | src/dmalloc.c:21-28 | the records held by a run of nodes: one per node, in list order |
| MemTrack.Tracker.constructor | src/dmalloc.c:28 | the list starts empty |
| MemTrack.Tracker.DebugMalloc | src/dmalloc.c:30-45 | a successful allocation puts its record in front of the list; a failed one changes nothing; the pointer is returned either way |
| MemTrack.Tracker.DebugFree | src/dmalloc.c:47-62 | the records become RemoveFirst of the old records: the first one for the pointer goes, the others keep their order |
| MemTrack.Tracker.FindTrack | src/dmalloc.c:48-60 | the walk stops at the first node for the pointer, with its predecessor, or at null when there is none |
| MemTrack.Tracker.Unlink | src/dmalloc.c:50-56 | the node is taken out of the list, and the list stays well linked |
| MemTrack.Tracker.DebugMemoryLeaks | src/dmalloc.c:64-70 | reports every record, most recent first, and changes nothing |
| MemTrack.RemoveFirstAt | src/dmalloc.c:47-59 | with the first record for the pointer at k, removal cuts exactly that record |
| MemTrack.RemoveFirstAbsent | src/dmalloc.c:47-59 | freeing an untracked pointer leaves the list as it was |
| MemTrack.MallocThenFree | src/dmalloc.c:30-59 | freeing the pointer just obtained restores the list from before the allocation |
| MemTrack.RemoveFirstKeepsOrder | src/dmalloc.c:47-59 | removal leaves the list as it was, or cuts out exactly one record for the pointer, the others keeping their order |
| MemTrack.RemoveFirstKeepsRecords | src/dmalloc.c:47-59 | removal only drops records: what is left was all in the list before, no more often |

## Left out

- Input and output: `fopen`, `fgets`, `fwrite`, the progress bar, `printf` in `conf_get`, the `MALLOC_TRACKING` print calls, `print_code`, `conf_print` and `main`. Files are sequences of lines; the output is the sequence of lines written.
- `strtod`, `atof` and `strptime` are uninterpreted parameters (`Csv.Libc`), and doubles are Dafny reals. IEEE rounding, NaN and infinities are not modelled. Dates are an opaque `DateTime`.
- `ExprLexer.StrtodRun` computes only the decimal prefix strtod reads from a run of digits and dots. Exponents, hexadecimal forms and rounding are not modelled.
- `strptime` writing part of a `struct tm` before it fails is not modelled.
- Memory defects of the C code that this model does not reproduce:
  - `malloc`/`free` of string literals and of the code buffer.
  - The `MAX_CODE_SIZE * sizeof(Instruction *)` allocation at src/expr.c:411, which holds fewer instructions than `emit` allows on LP64.
  - The `strncpy` without a terminator for quoted literals at src/expr.c:147.
  - The `strcat` onto an uninitialised buffer at src/conf.c:71-76.
  The model's buffers are exact.
- Tokens and strings are value copies. In the C code they point into the line buffer, which the next line overwrites.
- A NUL inside a line is not modelled. Neither is `fgets` splitting a line longer than 1023 bytes: `Csv.ShortLines` and `Conf`'s line sequence take lines as `fgets` returns them.
- `conf_free` and `mem_realloc` only release or move memory, and memory is not modelled. `mem_realloc` and `parse_cleaning` are declared but not defined in the sources.
- Mismatched declarations are not modelled:
  - `print_code`'s parameters.
  - `conf_get` and `conf_read_file` against hdr/conf.h.
  - `debug_memory_leaks` against hdr/dmalloc.h:22.
- `debug_malloc` failing to allocate its own MemTrack node is not modelled.
- `debug_free` releasing the user's pointer is not modelled.
- The operators without an implementation in `execute_code` (the numeric and string opcode families other than EQ_STR) are modelled only as the "Unknown op code!" abort.
- Exec: a read below the bottom of the stack is a `StackUnderflow` fault. The C code has no such check and reads outside its stack.
- Exec: a union member read other than the one last written is a `NotANumber` or `NotAString` fault. The C code reads whatever bits are there.
- Exec: a jump or variable index outside the program or the table is an `OutsideProgram` or `BadVarIndex` fault.
- Exec.Run and Exec.ExecuteCode take a fuel bound on the number of instructions, which the C loop does not have. `Exec.ForwardProgramsStop` and `Csv.FilterNeverOutOfFuel` prove that the bound `|code|` is never reached by compiled code.
- Csv.Process: when the first data row has more fields than the header, the C code overwrites VAR_END and from then on its loops over the variables read past the columns. The model stops there with `TableOverrun` instead, so it cuts short runs that the C code may complete: with the header `a,b`, the first row `1,2,` (three fields) and the expression `a = 1`, the C code types the third column over VAR_END, finds `a` at index 0 and goes on filtering every row, while the model writes only the header.
- Expr.Compiler and Csv.ProcessCsv: `Csv.Process` and `Csv.ProcessCsv` compile with the corrected operator probe (start 0). The compiler as written is `Expr.Compiler` constructed with probe start 1, whose `ParseExpression` computes `Expr.Compile` with start 1. `Expr.PlusStopsAsWritten` and `Expr.SumRefusedAsWritten` show how that differs.
- Csv.Blank, Csv.CsvTable and Csv.Process: the token and variable tables have 1025 slots (`Csv.TableSlots`), not the 1024 that src/fcsv.c:43-45 declares, so the NULL and VAR_END written after the widest line fit. `Csv.WidestLineOverflows` shows that 1024 slots are one short, and `Csv.TokensAlwaysFit` proves that 1025 are enough.
- A zero-initialised variable of type 0 is modelled as VAR_UNKNOWN. The switches of the C code treat both alike.
- Conf: a continuation still pending at the end of the file adds no entry, as in the C code. Keeping and freeing its buffer is not modelled.
- Concurrency: none in the sources.

## Findings

| source | as written | input that shows it | evidently intended | confidence | as-written member | corrected member |
|---|---|---|---|---|---|---|
| src/fcsv.c:43-68 | `tokens[]` and `variables[]` have MAX_LINE_ITEMS (1024) slots; `tokenize_line` stores one token per field and then NULL at `tokens[count]`, and `assign_variables_name` writes VAR_END at `variables[count]` | a line of 1023 delimiters, which fits the 1024-byte `fgets` buffer, has 1024 fields, so the NULL and VAR_END are written at index 1024, one past the end | one slot more than the widest line has fields (1025), so the terminator always fits | not executed | Csv.WidestLineOverflows | Csv.TokensAlwaysFit |
| src/expr.c:185 | `for (const Token *item = op_symbols; item++;)` advances `item` before the first test, so the probe starts at `op_symbols[1]` and never tries "+" | `1+2`: the '+' is reported as "Undefined symbol '+'", although `parse_arithmetic_expr` (src/expr.c:238-246) compiles OP_ADD | the probe starts at `op_symbols[0]`, so '+' is the addition operator, and `1+2` compiles to PUSH 1, PUSH 2, ADD, HALT; the lexers agree on every other input | not executed | Expr.SumRefusedAsWritten | Expr.SumCompiled |
