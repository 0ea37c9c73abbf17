# Lox front end and evaluator, modelled in Dafny

This project models the core of a Kotlin tree-walking interpreter for a subset of Lox:
the scanner (the current one and an older snapshot), the syntax tree, the recursive-descent
parser with panic-mode error recovery, the flat variable environment, the interpreter for
expressions and the `print`, expression and `var` statements, and the debugging AST printer.

The model keeps the form of the code:

- The scanner, the parser, the environment and the interpreter are objects whose fields change
  in place. They are `class`es here: `Scanning.Scanner`, `Parsing.Parser`,
  `Environments.Environment` and `Interpreting.Interpreter`. Their methods have the source's
  loops.
- Each method is proved to compute a pure function of the state it is called in. These
  functions are `ScanSpec.Step`/`ScanSpec.ScanFrom`, the `ParseSpec` productions,
  `Environments.Lookup`/`Assigned`/`Defined` and `Semantics.Eval`/`Exec`/`Run`. The language's
  rules are proved as lemmas about those functions, so they hold of the classes too.
- Kotlin exceptions (`ParseError`, `RuntimeError`) are values: the parser returns
  `Result<T, ParseException>` and the interpreter returns `Result<Value, RuntimeError>`. Both
  propagate with `:-`, where the source lets the exception unwind.
- Diagnostics sent to the driver are appended to sequences on each object: `errors` for the
  scanner and parser, `reported` for the interpreter. Values written by `println` are appended
  to `output`.
- Both scanners are one `Scanner` class with a `dialect`. `Current` is `src/lox/Scanner.kt`,
  which looks identifiers up in the keyword table. `Snapshot` is `src/Scanner.kt`, which never
  does. `ScanSpec.SnapshotScan` proves that this is the only difference.

Files:

- `wrappers.dfy`: `Option`, `Result`.
- `tokens.dfy`: token kinds, literal values, tokens.
- `ast.dfy`: `Expr`, `Stmt`.
- `scan_spec.dfy`, `scanner.dfy`: the scanner.
- `parse_spec.dfy`, `parse_facts.dfy`, `parser.dfy`: the parser.
- `environment.dfy`: the environment.
- `semantics.dfy`, `interpreter.dfy`: the interpreter.
- `printer.dfy`: the AST printer.

On three points this code departs from the usual Lox, and the model follows the code:

- The scanner's `line` counter starts at 0, not 1 (`src/lox/Scanner.kt:9`, `src/Scanner.kt:7`).
- The environment is one flat map with no enclosing environment (`src/lox/Environment.kt:4`).
- A block is parsed, but the interpreter has no `visitBlockStmt`, so no child scope is ever
  created.

## Model

| member | source | states |
|---|---|---|
| Scanning.Scanner.constructor | src/lox/Scanner.kt:5-9 | a fresh scanner has no tokens or errors, and `start`, `current` and `line` are 0 |
| Scanning.Scanner.ScanTokens | src/lox/Scanner.kt:29-36 | the loop ends with `current` at the end of the source; the tokens are those of `ScanFrom` followed by the EOF token, and the errors are those of `ScanFrom` |
| Scanning.Scanner.ScanNext | src/lox/Scanner.kt:30-33 | one loop turn consumes at least one character and keeps "collected so far + what the rest yields" unchanged |
| Scanning.Scanner.ScanToken | src/lox/Scanner.kt:38-71 | `scanToken` moves the cursor to `Step`'s end and appends exactly `Step`'s token and error |
| Scanning.Scanner.ScanOperator | src/lox/Scanner.kt:51-54 | `!`, `=`, `<`, `>` add the token `OperatorToken` gives: the two-character kind when `=` follows |
| Scanning.Scanner.ScanSlash | src/lox/Scanner.kt:55-59 | `/` either skips a line comment or adds SLASH, as `SlashToken` says |
| Scanning.Scanner.SkipComment | src/lox/Scanner.kt:57 | the comment loop stops at the next newline or the end, leaving `line` unchanged |
| Scanning.Scanner.Identifier | src/lox/Scanner.kt:73-79 | adds `IdentifierToken`'s token; the current dialect looks the text up in the keyword table |
| Scanning.Scanner.AdvanceAlphaNumeric | src/lox/Scanner.kt:74 | the loop stops at the first character that is not a letter, digit or underscore |
| Scanning.Scanner.Number | src/lox/Scanner.kt:81-90 | adds `NumberToken`'s token: digits, then a dot and digits only when a digit follows the dot |
| Scanning.Scanner.AdvanceDigits | src/lox/Scanner.kt:82 | the loop stops at the first non-digit |
| Scanning.Scanner.String | src/lox/Scanner.kt:92-107 | adds the string token, or reports "Unterminated string." with no token, as `StringToken` says |
| Scanning.Scanner.AdvanceStringBody | src/lox/Scanner.kt:93-96 | the loop stops at the next quote or the end; `line` counts the newlines it passes |
| Scanning.Scanner.Match | src/lox/Scanner.kt:109-114 | consumes one character exactly when it is the expected one |
| Scanning.Scanner.Advance | src/lox/Scanner.kt:149-152 | consumes and returns the next character; `Lines(source, current)` grows by one exactly when that character is a newline |
| Scanning.Scanner.AddToken | src/lox/Scanner.kt:144-147 | appends a token whose lexeme is `source[start..current]`, at the current line |
| Scanning.Scanner.Report | src/lox/Scanner.kt:68 | appends the diagnostic (line, message) to `errors` |
| ScanSpec.KeywordTableKinds | src/lox/Scanner.kt:10-27 | every kind in the keyword table is a keyword kind, so never IDENTIFIER or EOF |
| ScanSpec.ClassifyExact | src/lox/Scanner.kt:40-69 | the branches of `scanToken`'s `when` are taken by exactly the characters each one tests for |
| ScanSpec.Step | src/lox/Scanner.kt:38-71 | every step consumes at least one character and stays in the source; its token's lexeme is the consumed slice, its line is the newline count up to the step's end, and it is never EOF |
| ScanSpec.StringTokenCases | src/lox/Scanner.kt:92-107 | `string()` either reports "Unterminated string." at the end of the source, or emits STRING whose literal is the text between the quotes |
| ScanSpec.NumberTokenValue | src/lox/Scanner.kt:81-90 | `number()` emits NUMBER whose lexeme is the consumed slice and whose literal is that slice's decimal value |
| ScanSpec.StepIsString | src/lox/Scanner.kt:63 | a step on `"` runs the string scanner |
| ScanSpec.StepIsNumber | src/lox/Scanner.kt:66 | a step on a digit runs the number scanner |
| ScanSpec.StepIsIdentifier | src/lox/Scanner.kt:67 | a step on a letter or `_` runs the identifier scanner |
| ScanSpec.ScanFromStep | src/lox/Scanner.kt:29-33 | each turn of the `scanTokens` loop contributes its step's token and error before all later ones |
| ScanSpec.ScanFromAdvance | src/lox/Scanner.kt:29-33 | the loop's "collected + what remains" invariant survives one turn |
| ScanSpec.GreedyOperator | src/lox/Scanner.kt:51-54 | `!`, `=`, `<`, `>` followed by `=` give the two-character token with a two-character lexeme, otherwise the one-character token |
| ScanSpec.CommentOrSlash | src/lox/Scanner.kt:55-59 | `//` emits nothing and stops before the next newline, passing none; a lone `/` is SLASH with lexeme "/" |
| ScanSpec.StringClosed | src/lox/Scanner.kt:92-107 | a closed string ends at the first quote; its lexeme includes both quotes and its literal is the text strictly between them, newlines included |
| ScanSpec.StringUnterminated | src/lox/Scanner.kt:98-101 | an unterminated string consumes the rest of the source, adds no token and reports "Unterminated string." at the final line |
| ScanSpec.StopAtFirst | src/lox/Scanner.kt:93 | the string loop (and likewise the comment loop) stops at the first quote (newline) at or after where it starts |
| ScanSpec.StopAtRun | src/lox/Scanner.kt:57 | the comment loop passes no newline, and the string loop no quote |
| ScanSpec.NumberLiteral | src/lox/Scanner.kt:81-90 | a number lexeme is digits, optionally followed by a dot and at least one digit; it is maximal; a trailing dot without a digit after it is not consumed; its literal is its decimal value |
| ScanSpec.NumberEndMaximal | src/lox/Scanner.kt:84-87 | `number()` stops neither before a digit nor, while it has no fraction yet, before a dot followed by a digit |
| ScanSpec.IdentifierKind | src/lox/Scanner.kt:73-79 | an identifier is the maximal run of letters, digits and underscores; with the current scanner its kind is the keyword's when its text is in the table and IDENTIFIER otherwise; with the snapshot it is always IDENTIFIER |
| ScanSpec.UnexpectedCharacterReported | src/lox/Scanner.kt:68 | any other character is consumed and reported as "Unexpected character." at its line, and adds no token |
| ScanSpec.ScanFromSpans | src/lox/Scanner.kt:144-147 | each scanned token's lexeme is the source text of its span, and its line is the newline count up to the span's end |
| ScanSpec.SpansOrdered | src/lox/Scanner.kt:29-33 | the spans of the tokens lie inside the source and are increasing and non-overlapping |
| ScanSpec.SingleEof | src/lox/Scanner.kt:34 | `scanTokens` ends with exactly one EOF token, with an empty lexeme, a nil literal and the final line count; no earlier token is EOF |
| ScanSpec.LinesCountNewlines | src/lox/Scanner.kt:92-96 | between two cursor positions `line` grows by exactly the number of newlines in between, including those in string literals |
| ScanSpec.StepDialects | src/Scanner.kt:50-53 | one snapshot step consumes what the current scanner's step consumes and reports the same error; its token is the current token with a keyword kind turned into IDENTIFIER |
| ScanSpec.StepIgnoresDialect | src/Scanner.kt:18-47 | apart from identifiers, a snapshot step is identical to a current step |
| ScanSpec.SnapshotScan | src/Scanner.kt:9-16 | the snapshot scanner yields the current scanner's tokens with keywords demoted to IDENTIFIER, and the same diagnostics |
| ParseSpec.Advance | src/lox/Parser.kt:168-171 | `advance` never moves past EOF and otherwise moves by one |
| ParseSpec.Consume | src/lox/Parser.kt:158-161 | `consume` returns the expected token and moves past it exactly when `check` holds; otherwise it reports the message at `peek()` and throws |
| ParseSpec.ParseExpression | src/lox/Parser.kt:65 | the cursor stays in bounds and never moves back; a throw has reported an error |
| ParseSpec.ParseAssignment | src/lox/Parser.kt:67-79 | the cursor stays in bounds and never moves back; a throw has reported an error |
| ParseSpec.ParseBinary | src/lox/Parser.kt:81-119 | the cursor stays in bounds and never moves back; a throw has reported an error |
| ParseSpec.ParseUnary | src/lox/Parser.kt:121-128 | the cursor stays in bounds and never moves back; a throw has reported an error |
| ParseSpec.ParsePrimary | src/lox/Parser.kt:130-146 | the cursor stays in bounds and never moves back; a throw has reported an error |
| ParseSpec.ParseVarDeclaration | src/lox/Parser.kt:43-48 | the cursor stays in bounds and never moves back; a throw has reported an error |
| ParseSpec.ParseExpressionStatement | src/lox/Parser.kt:50-54 | a parsed statement consumed at least one token |
| ParseSpec.Synchronize | src/lox/Parser.kt:184-193 | `synchronize` reports nothing and always discards the current token unless it is EOF |
| ParseSpec.ParseDeclaration | src/lox/Parser.kt:21-29 | `declaration` never throws, and away from EOF it always consumes at least one token, so `parse` terminates |
| ParseSpec.ParseStatement | src/lox/Parser.kt:31-35 | a parsed statement consumed at least one token |
| ParseSpec.BlockFrom | src/lox/Parser.kt:56-63 | the block loop keeps the cursor in bounds; a missing `}` is reported |
| ParseSpec.Parse | src/lox/Parser.kt:12-19 | `parse` always finishes, stopping at EOF |
| ParseFacts.OperatorsBinding | src/lox/Parser.kt:81-119 | each binary level matches exactly the operators of its binding strength |
| ParseFacts.AssignmentShape | src/lox/Parser.kt:67-79 | every expression `assignment()` returns is well nested |
| ParseFacts.BinaryShape | src/lox/Parser.kt:81-119 | every tree a binary level returns is well nested and binds at least as tightly as the level |
| ParseFacts.TailShape | src/lox/Parser.kt:83-87 | the binary levels' fold loop keeps the tree well nested |
| ParseFacts.OperandShape | src/lox/Parser.kt:82 | the operand of a binary level binds strictly more tightly than the level |
| ParseFacts.UnaryShape | src/lox/Parser.kt:121-128 | `unary()` returns a prefix or primary expression |
| ParseFacts.PrimaryShape | src/lox/Parser.kt:130-146 | `primary()` returns a literal, variable or grouping |
| ParseFacts.ExpressionWellNested | src/lox/Parser.kt:65-128 | precedence runs equality < comparison < addition < multiplication < unary < primary, binary operators group to the left, and assignment groups to the right with a variable as target |
| ParseFacts.LeftFold | src/lox/Parser.kt:101-109 | `a - b - c` (and likewise at every binary level) parses as `Binary(Binary(a, -, b), -, c)` |
| ParseFacts.LeftNestedCons | src/lox/Parser.kt:83-87 | folding the first operator and operand in first gives the same left-nested tree |
| ParseFacts.TailFold | src/lox/Parser.kt:83-87 | the `while (match(...))` loop folds any number of further operators and operands onto the left, in token order |
| ParseFacts.BinaryFold | src/lox/Parser.kt:81-119 | a binary level over operands separated by its operator tokens, however many, yields `Binary(…Binary(o0, t1, o1)…, tn, on)` with those very tokens and operands |
| ParseFacts.UnaryCases | src/lox/Parser.kt:121-128 | `!` or `-` becomes a prefix node of that token over the rest; any other token goes to `primary()` |
| ParseFacts.PrimaryCases | src/lox/Parser.kt:130-144 | `false`, `true`, `nil` become those literals, a number or string a literal of the token's value, an identifier a variable of that token, and `(` expression `)` a grouping, each consuming its tokens |
| ParseFacts.AssignmentToVariable | src/lox/Parser.kt:67-75 | a variable followed by `=` becomes `Assign(name, value)` of the right-hand side |
| ParseFacts.InvalidTargetReported | src/lox/Parser.kt:76-78 | any other target before `=` reports "Invalid assignment target." at the `=` without throwing, and returns the target itself after the right-hand side |
| ParseFacts.PrimaryRejects | src/lox/Parser.kt:145 | a token that cannot start a primary expression, EOF included, is reported as "Expect expression." and nothing is consumed |
| ParseFacts.SyncLoopStops | src/lox/Parser.kt:186-192 | the recovery loop stops at the first statement boundary |
| ParseFacts.SynchronizeStops | src/lox/Parser.kt:184-193 | `synchronize` discards the current token and stops at the first boundary after it: EOF, just after `;`, or just before `class`, `fun`, `var`, `for`, `if`, `while`, `print` or `return` |
| ParseFacts.DroppedDeclarationReported | src/lox/Parser.kt:21-29 | a declaration yields no statement exactly when it failed, and then an error has been reported |
| ParseFacts.InitializerShape | src/lox/Parser.kt:45 | a `var` initializer is well nested |
| ParseFacts.VarDeclarationShape | src/lox/Parser.kt:43-48 | a parsed `var` declaration names an identifier and its initializer is well nested |
| ParseFacts.DeclarationShape | src/lox/Parser.kt:21-29 | every declaration's statement is well nested |
| ParseFacts.BodyShape | src/lox/Parser.kt:23-24 | the statement `varDeclaration` or `statement` returns is well nested |
| ParseFacts.StatementShape | src/lox/Parser.kt:31-35 | every statement is well nested |
| ParseFacts.BlockShape | src/lox/Parser.kt:56-63 | a block body holds only successfully parsed, well-nested statements |
| ParseFacts.ParseFromShape | src/lox/Parser.kt:12-19 | the program loop collects only well-nested statements |
| ParseFacts.ProgramWellNested | src/lox/Parser.kt:12-19 | every statement of a parsed program, including those inside blocks, is well nested |
| Parsing.Parser.constructor | src/lox/Parser.kt:6-10 | a new parser starts at token 0 with no errors |
| Parsing.Parser.Parse | src/lox/Parser.kt:12-19 | computes `ParseSpec.ParseFrom`: the statements of the declarations that succeeded, with the cursor at EOF |
| Parsing.Parser.Declaration | src/lox/Parser.kt:21-29 | computes `ParseDeclaration`; on a throw it synchronizes and yields no statement |
| Parsing.Parser.Statement | src/lox/Parser.kt:31-35 | computes `ParseStatement` |
| Parsing.Parser.PrintStatement | src/lox/Parser.kt:37-41 | computes `ParsePrintStatement` |
| Parsing.Parser.VarDeclaration | src/lox/Parser.kt:43-48 | computes `ParseVarDeclaration` |
| Parsing.Parser.ExpressionStatement | src/lox/Parser.kt:50-54 | computes `ParseExpressionStatement` |
| Parsing.Parser.Block | src/lox/Parser.kt:56-63 | computes `BlockFrom` |
| Parsing.Parser.Expression | src/lox/Parser.kt:65 | computes `ParseExpression` |
| Parsing.Parser.Assignment | src/lox/Parser.kt:67-79 | computes `ParseAssignment` |
| Parsing.Parser.BinaryLevel | src/lox/Parser.kt:81-119 | the fold loop of `equality`, `comparison`, `addition` and `multiplication` computes `ParseBinary` for its level |
| Parsing.Parser.Operand | src/lox/Parser.kt:82 | computes `ParseOperand`: each binary level's operand is the next level down |
| Parsing.Parser.Unary | src/lox/Parser.kt:121-128 | computes `ParseUnary` |
| Parsing.Parser.Primary | src/lox/Parser.kt:130-146 | computes `ParsePrimary` |
| Parsing.Parser.Match | src/lox/Parser.kt:148-156 | consumes one token exactly when one of the kinds matches it, and reports nothing |
| Parsing.Parser.Consume | src/lox/Parser.kt:158-161 | computes `ParseSpec.Consume` |
| Parsing.Parser.Advance | src/lox/Parser.kt:168-171 | computes `ParseSpec.Advance` |
| Parsing.Parser.Error | src/lox/Parser.kt:179-182 | reports the message at the token and leaves the cursor |
| Parsing.Parser.Synchronize | src/lox/Parser.kt:184-193 | computes `ParseSpec.Synchronize` |
| Environments.RuntimeError.Text | src/lox/Environment.kt:11 | the undefined-variable message names the lexeme: "Undefined variable '<lexeme>'." |
| Environments.Defined | src/lox/Environment.kt:14-16 | `define` binds the name to the value, adds it to the names if new, and leaves every other binding unchanged |
| Environments.Lookup | src/lox/Environment.kt:18-23 | `get` succeeds exactly when the lexeme is bound, with its value; otherwise it fails with the undefined-variable error at that token |
| Environments.Assigned | src/lox/Environment.kt:6-12 | `assign` succeeds exactly when the lexeme is bound; it then rebinds it and leaves the names and every other binding unchanged; otherwise it fails with the undefined-variable error |
| Environments.LookupAfterDefine | src/lox/Environment.kt:14-20 | `get` after `define` of the same name returns the defined value |
| Environments.LookupAfterAssign | src/lox/Environment.kt:6-20 | `get` after `assign` returns the assigned value, and other names read as before |
| Environments.Environment.constructor | src/lox/Environment.kt:4 | a new environment is empty |
| Environments.Environment.Define | src/lox/Environment.kt:14-16 | the map becomes `Defined(old map, name, value)` |
| Environments.Environment.Get | src/lox/Environment.kt:18-23 | returns `Lookup` of the map, without changing it |
| Environments.Environment.Assign | src/lox/Environment.kt:6-12 | on success the map becomes `Assigned`'s; on the undefined-variable error it is unchanged |
| Semantics.CheckNumberOperand | src/lox/Interpreter.kt:99-103 | passes exactly when the operand is a number; otherwise "Operand must be a number." at the operator |
| Semantics.CheckNumberOperands | src/lox/Interpreter.kt:105-109 | passes exactly when both operands are numbers; otherwise "Operands must be numbers." at the operator |
| Semantics.Truthiness | src/lox/Interpreter.kt:115-119 | only nil and false are falsy; 0 and the empty string are truthy |
| Semantics.EqualityOperators | src/lox/Interpreter.kt:121-125 | `isEqual` is equality of values with no coercion between kinds; `==` yields it and `!=` its negation |
| Semantics.PlusOperands | src/lox/Interpreter.kt:46-50 | `+` adds two numbers or concatenates two strings, and fails with "Operands must be two numbers or two strings." on any other pair |
| Semantics.NumericOperands | src/lox/Interpreter.kt:42-74 | `-`, `/`, `*`, `>`, `>=`, `<`, `<=` fail with "Operands must be numbers." unless both operands are numbers; on two numbers `-`, `*` and `/` yield the difference, product and quotient, and `>`, `>=`, `<`, `<=` yield the comparison's boolean |
| Semantics.UnaryOperands | src/lox/Interpreter.kt:81-91 | `!` yields the negated truthiness and never fails; `-` negates a number and fails with "Operand must be a number." on anything else |
| Semantics.LeftBeforeRight | src/lox/Interpreter.kt:37-40 | the left operand is evaluated first; its error is the result and the right operand is not evaluated; the right operand's error comes before any operand check; when both succeed the result is the operator applied to the two values, and the bindings are those the right operand left |
| Semantics.AssignmentExpression | src/lox/Interpreter.kt:31-35 | an assignment yields the assigned value and rebinds only its name; an unbound name fails with the undefined-variable error and binds nothing |
| Semantics.EvalKeepsNames | src/lox/Interpreter.kt:31-97 | evaluating an expression never creates or removes a binding |
| Semantics.VarStatement | src/lox/Interpreter.kt:18-21 | `var` binds the name to the initializer's value, or to nil without one, overwriting any earlier binding |
| Semantics.RunStopsAtFirstError | src/lox/Interpreter.kt:23-29 | after the first runtime error no later statement runs or prints, and the bindings are those at the error |
| Interpreting.Interpreter.constructor | src/lox/Interpreter.kt:6-7 | a new interpreter has an empty environment and no output or reports |
| Interpreting.Interpreter.Interpret | src/lox/Interpreter.kt:23-29 | the bindings and output are `Run`'s, and its runtime error, if any, is reported exactly once |
| Interpreting.Interpreter.Execute | src/lox/Interpreter.kt:9-21 | the bindings, output and error are `Exec`'s |
| Interpreting.Interpreter.Evaluate | src/lox/Interpreter.kt:31-97 | the result and the bindings are `Eval`'s |
| Printing.Parenthesize | src/lox/AstPrinter.kt:31-39 | the builder loop produces `(`, the lexeme, a space and a rendering per argument in order, then `)` |
| Printing.SpacedOne | src/lox/AstPrinter.kt:34-36 | one argument is appended as a space and its rendering |
| Printing.SpacedTwo | src/lox/AstPrinter.kt:34-36 | two arguments are appended as a space and a rendering each, in order |
| Printing.PrintShapes | src/lox/AstPrinter.kt:14-29 | nil renders as `nil`; a grouping as `(group e)`; a binary node as `(op l r)`; a unary node as `(op r)` |
| Printing.DepthConcat | src/lox/AstPrinter.kt:31-39 | parenthesis depth adds up over concatenation |
| Printing.ParenFreeDepth | src/lox/AstPrinter.kt:26-29 | text with no parentheses has depth 0 |
| Printing.ParenFreeBalanced | src/lox/AstPrinter.kt:26-29 | text with no parentheses is balanced |
| Printing.BalancedConcat | src/lox/AstPrinter.kt:31-39 | concatenating balanced texts gives balanced text |
| Printing.SpacedBalanced | src/lox/AstPrinter.kt:34-36 | the space-separated renderings of balanced parts are balanced |
| Printing.Enclosed | src/lox/AstPrinter.kt:33-37 | wrapping balanced text in parentheses gives balanced text whose first parenthesis closes only at its end |
| Printing.ParenthesizedBalanced | src/lox/AstPrinter.kt:31-39 | `parenthesize` of a parenthesis-free lexeme and balanced parts is balanced and enclosed by one pair |
| Printing.PrintBalanced | src/lox/AstPrinter.kt:10-39 | when no lexeme or literal text holds a parenthesis, every rendering is balanced, and that of a non-literal starts with `(`, ends with `)` and closes its first parenthesis only at the end |

## Left out

- Number values are exact rationals (`real`), not IEEE doubles: `toDouble()` (src/lox/Scanner.kt:89) gives a NUMBER literal the lexeme's exact decimal value, and arithmetic is exact.
- Semantics.Quotient: division by zero yields 0. The source yields an infinity or NaN, which `real` cannot represent.
- Semantics.EqualityOperators: NaN and signed-zero equality are not modelled, because there is no floating point.
- `stringify` and `Double.toString` are not modelled. `print` records the printed `Value` in `output`, not its text. The printer takes the text of a number as a parameter, `numeral`.
- Printing.LiteralText: a non-nil literal renders through an abstract `toString`: the `numeral` parameter for numbers, the raw text for strings, `true`/`false` for booleans.
- The drivers `src/lox/Lox.kt` and `src/Lox.kt` are not part of this model. This covers reading files, the REPL, exit codes, printing to stderr, the `hadError`/`hadRuntimeError` flags and the `where` text of error messages. Their `error` and `runtimeError` calls become records appended to `errors` and `reported`.
- Scanner and parser messages are enumerations (`LexMessage`, `ParseMessage`) with their exact texts given by `MessageText` and `ErrorText`. A runtime error's text is `RuntimeError.Text`.
- The interpreter executes no `Block` statement: the source's `Interpreter` has no `visitBlockStmt`. `Interpret` and `Execute` therefore require every statement to be `print`, expression or `var`.
- There is no nested scope: `Environment` has no enclosing environment in the source.
- Parsing.Parser.constructor: requires the token list to end with EOF, as `scanTokens` always produces; `peek()` on a list without EOF would index out of bounds.
- Parsing.Parser.Advance: the source's `advance()` also returns `previous()`. Callers here read `Previous()` after `Advance()`.
- Parsing.Parser.BinaryLevel: the four binary levels `equality`, `comparison`, `addition` and `multiplication` are one method taking the level. They differ only in their operator list and the next level down.
- `src/lox/tools/GenerateAst.kt` is code generation and is not part of this model.
- `AstPrinter.main` (src/lox/AstPrinter.kt:42-53) is a demo and is not part of this model.
- The printer handles grouping, binary, unary and literal expressions only, like the four-case visitor it implements. `Printing.Print` requires `Printable`.
- Source text is a Dafny `string`, a sequence of Unicode scalar values, where the source indexes UTF-16 code units. A character outside the Basic Multilingual Plane is one character here: outside a string literal it yields one "Unexpected character." diagnostic where the source yields two, one per surrogate.
- Integer widths do not arise: positions and line counts are `nat`, and the source's `Int` counters cannot overflow on any string that fits in memory.
