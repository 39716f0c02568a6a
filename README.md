# A verified model of the Imp toy compiler front end

The compiler reads a small imperative language (procedures with `int` and `float`
variables and arrays, assignments, `if`/`else`, `while`, counted `for` loops,
`read` and `write`). It turns the program into a WebAssembly text-format module.
This project models three parts of it in Dafny:

- **`Lexer`** (`lexer.dfy`) models the `ImpLexer` token table.
  - It is an ordered, first-match rule table: 28 rules in class order, newline runs first, the two number rules last.
  - Spaces and tabs are skipped. A run of newlines advances the line counter.
  - A single-character literal is a token of its own. Any other character stops the scan and names that character.
  - `Scan` is the token stream as a function. The class `ImpLexer` keeps the line counter and the scan position, and its `Tokenize` loop is proved equal to `Scan`.
- **`Parser`** (`parser.dfy`) models the `ImpParser` grammar and its semantic actions, written as a recursive-descent parser over the token stream.
  - Commands, conditions, expressions, values and identifiers are pure functions. They resolve names against a snapshot of the two symbol tables.
  - The class `ImpParser` holds the `locals` and `local_arrays` tables and the `code` record.
  - Its methods (`Declare`, `DeclareAll`, `ParseProcedure`, `ParseMain`, `ParseProcedures`, `Parse`) update the tables in place. Each is proved against a pure specification function (`ProcedureSpec`, `MainSpec`, `ProceduresSpec`, `ProgramSpec`).
  - **`ParserRoundTrip`** (`roundtrip.dfy`) pairs every production with a printer. It proves that a successful parse consumed exactly the printed form of what it built. So every list keeps source order, operands keep their order, and no token is dropped.
- **`Wasm`** (`wasm.dfy`) models `WasmGenerator`.
  - The class appends to its `code` string step by step, as the generator does.
  - Its constructor is proved to leave exactly `ModuleText(prog)`: the header with the two write imports, one `func` block per procedure with its `param` line and then its `local` line, the `$main` block with locals only, the export and the closing parenthesis.
  - Properties of that text are proved as lemmas.

`Syntax` (`syntax.dfy`) holds the intermediate representation the actions build:
- `Local`, `Const` (tagged `i64`/`f64`), an array-reference placeholder, binary expressions with an operation tag, and conditions with a comparison tag;
- commands, declarations, procedures, `main` and the program record.

The `intermediate_code` module is not part of this model. Its classes are plain datatypes here, read from how the actions construct them. `Wrappers` holds `Option`.

Parse failures are values of `ParseError`:
- a lexical error, when the parser reaches the character the lexer could not read;
- a syntax error carrying the offending token, or the end of input;
- an unknown variable or an unknown array;
- an action reading a symbol its production lacks;
- the unmodelled `call` command.

## Model

| member | source | states |
|---|---|---|
| Lexer.RunLengthRun | parser.py:50-60 | A greedy `X+` match takes a run of characters all of the class, and the character after the run (if any) is not of the class |
| Lexer.MasterMatch | parser.py:16-60 | One attempt of the master pattern: a newline move or a token move consumes at least one character, and the token carries the current line and its index |
| Lexer.FirstRuleIs | parser.py:16-60 | Rules are tried in class order: when rules `k..j-1` do not match and rule `j` does, rule `j` is chosen |
| Lexer.FirstRuleNone | parser.py:16-60 | No rule is chosen exactly when no rule of the table matches (both directions) |
| Lexer.ImpLexer.constructor | parser.py:7 | A new lexer starts on line 1 at index 0 |
| Lexer.ImpLexer.IgnoreNewline | parser.py:12-14 | The newline action adds the length of the run to the line counter and changes nothing else |
| Lexer.ImpLexer.Tokenize | parser.py:7-66 | The loop produces exactly the stream `Scan(text, 0, 1)`; the line counter is 1 plus the newlines passed; the scan ends at the end of the text or at the illegal character, whose line and index it reports |
| Lexer.SkippedInput | parser.py:12-14 | A blank yields no token; a run of `n` newlines is the whole maximal run, yields no token and adds exactly `n` to the line |
| Lexer.MasterMatchNewlines | parser.py:12-14 | After any move the line counter equals 1 plus the newlines before the new index: a newline move adds its length, a token adds nothing |
| Lexer.NewlineFirst | parser.py:12-14 | A newline is always taken by the newline rule |
| Lexer.IllegalCharacterStops | parser.py:62-63 | A character that is not blank, literal, newline, letter or digit, and starts no fixed word, stops the scan with an error naming it, its line and its index |
| Lexer.OutsideAlphabet | parser.py:19-50 | A character that is neither a letter, `_` nor an operator character starts no fixed word |
| Lexer.IllegalEnd | parser.py:62-63 | Conversely, a scan that stops does so at a character of the text that is not blank or literal and that no rule matches |
| Lexer.SpelledWins | parser.py:19-48 | Where the text spells a reserved word, a brace or a two-character operator, that rule wins whatever follows, emitting its own kind with exactly that word |
| Lexer.SpelledAlone | parser.py:19-50 | Each reserved word (including `main`), brace and two-character operator, on its own, is exactly one token of its kind and never a `PID` |
| Lexer.PidNeverSpelled | parser.py:19-50 | A `PID` token never starts where a reserved word or operator is spelled, so `downto` is never `to`+`wn…` and `total` is `to` then `tal` |
| Lexer.LongerOperatorFirst | parser.py:41-47 | `>`, `<`, `=` followed by `=` lex as `>=`, `<=`, `==` (two characters); otherwise as themselves (one character) |
| Lexer.NumberWins | parser.py:52-60 | At a digit: digits, a dot and a digit run give `NUM_FLOAT` with the matched text; otherwise the digit run gives `NUM_INT` with its decimal value |
| Lexer.FloatAheadMatch | parser.py:52-55 | The float rule matches exactly when a digit run, a dot and a digit follow (both directions) |
| Lexer.IdentifierWins | parser.py:50 | Where a letter or `_` starts and no reserved word is spelled, `PID` takes the whole run of `[_a-z]` |
| Lexer.ScanStep | parser.py:62-66 | One step of the scan: it stops at an illegal character, or yields at most one token placed at the current index and line and continues with the line grown by the newlines passed |
| Lexer.ScanPositions | parser.py:12-14 | Every token of a stream lies in the text, in strictly increasing index order, with the line number of its index |
| Lexer.TokenLines | parser.py:12-14 | Every token's line is one plus the newlines before it, and token indices increase |
| Parser.ParseType | parser.py:132-134 | Succeeds exactly on `int`/`float`, taking one token |
| Parser.TypeSpelling | parser.py:132-134 | The type is spelled as the keyword's first letter followed by `64`: `int` gives `i64`, `float` gives `f64` |
| Parser.OperatorTags | parser.py:197-215 | Each of `+ - * / %` maps to exactly one operation tag and no other token maps to one (both directions) |
| Parser.RelationTags | parser.py:217-239 | Each of `== != < > <= >=` maps to exactly one condition tag and no other token maps to one (both directions) |
| Parser.ParseIdentifier | parser.py:253-271 | A resolved identifier is a `Local` carrying the type its table records, or the array placeholder |
| Parser.ParseValue | parser.py:241-251 | A value agrees with the tables; a constant takes one token and is `i64` exactly for `NUM_INT` and `f64` exactly for `NUM_FLOAT` |
| Parser.ParseExpression | parser.py:193-215 | On success an expression consumes at least one token and every operand agrees with the tables |
| Parser.ParseCondition | parser.py:217-239 | On success a condition consumes at least one token and both operands agree with the tables |
| Parser.ParseCommands | parser.py:136-142 | A command list is non-empty and consumes at least one token; its content is stated by `ParserRoundTrip.CommandsRoundTrip` |
| Parser.ParseBlock | parser.py:158-161 | A braced body consumes at least its braces and one command |
| Parser.ParseCommand | parser.py:144-179 | A command consumes at least one token; its content is stated by `ParserRoundTrip.CommandRoundTrip` and `Parser.CommandWellTyped` |
| Parser.ParseAssign | parser.py:144-146 | An assignment consumes at least one token; its content is stated by `ParserRoundTrip.AssignRoundTrip` |
| Parser.ParseIf | parser.py:148-156 | A conditional consumes at least one token; its content is stated by `ParserRoundTrip.IfRoundTrip` and its typing by `Parser.IfWellTyped` |
| Parser.ParseIfRest | parser.py:148-156 | The rest of a conditional builds an `if` or `if`/`else` with the given condition and first branch |
| Parser.ParseWhile | parser.py:158-161 | A `while` loop consumes at least one token; its content is stated by `ParserRoundTrip.WhileRoundTrip` and its typing by `Parser.WhileWellTyped` |
| Parser.ParseFor | parser.py:163-171 | A counted loop consumes at least one token; its content is stated by `ParserRoundTrip.ForRoundTrip` and its typing by `Parser.ForWellTyped` |
| Parser.ParseForRest | parser.py:163-171 | The rest of a counted loop consumes at least one token; its content is stated by `ParserRoundTrip.ForRestRoundTrip` |
| Parser.BlockParts | parser.py:158-161 | Proof helper for the well-typing and round-trip lemmas, unfolding the production once: a braced body is `{`, a command list, `}` |
| Parser.IfParts | parser.py:148-156 | Proof helper for the well-typing and round-trip lemmas, unfolding the production once: a conditional is `if`, a condition, `{`, a command list, then its rest, and its condition is the parsed one |
| Parser.ElseParts | parser.py:148-156 | Proof helper for the well-typing and round-trip lemmas, unfolding the production once: the rest of a conditional is `}` (an `if`) or `else`, a command list, `}` (an `if`/`else`): the `else` branch has no braces of its own |
| Parser.WhileParts | parser.py:158-161 | Proof helper for the well-typing and round-trip lemmas, unfolding the production once: a `while` loop is `while`, a condition and a braced body, built as `While(cond, body)` |
| Parser.ForParts | parser.py:163-171 | Proof helper for the well-typing and round-trip lemmas, unfolding the production once: a counted loop is `for`, a `PID`, `from`, a value, then its rest, with the loop variable kept as its raw name |
| Parser.ForRestParts | parser.py:163-171 | Proof helper for the well-typing and round-trip lemmas, unfolding the production once: `to` builds `ForUp` and `downto` builds `ForDown`, with the start value, the bound and the body |
| Parser.CommandsParts | parser.py:136-142 | Proof helper for the well-typing and round-trip lemmas, unfolding the production once: a command list is its first command followed by the rest of the list while the next token can start a command |
| Parser.CommandsWellTyped | parser.py:136-179 | Every value in a parsed command list agrees with the tables: variables carry their declared type, constants the type of their literal |
| Parser.BlockWellTyped | parser.py:158-161 | The same for a braced body |
| Parser.CommandWellTyped | parser.py:144-179 | The same for one command |
| Parser.IfWellTyped | parser.py:148-156 | The same for a conditional |
| Parser.IfRestWellTyped | parser.py:148-156 | A conditional built from a well-typed condition and first branch is well typed, its `else` branch included |
| Parser.WhileWellTyped | parser.py:158-161 | The same for a `while` loop |
| Parser.ForWellTyped | parser.py:163-171 | The same for a counted loop |
| Parser.ParseDeclaration | parser.py:122-130 | A declaration is a type and a `PID`, with a size exactly when `[` follows the name; the name is the `PID`'s |
| Parser.ParseDeclarationAsWritten | parser.py:122-125 | The array production as written fails with a missing-symbol error exactly when the declaration is an array one, and otherwise agrees with `ParseDeclaration` |
| Parser.ParseDeclList | parser.py:114-120 | A declaration list is non-empty and consumes at least one token; its content is stated by `ParserRoundTrip.DeclListRoundTrip` and its table updates by `Parser.ImpParser.DeclareAll` |
| Parser.ParseArgs | parser.py:106-112 | An argument list consumes at least its parentheses; its content is stated by `ParserRoundTrip.ArgsRoundTrip` |
| Parser.ParseDeclarations | parser.py:98-104 | An empty declaration part consumes nothing; a non-empty one consumes tokens; its content is stated by `ParserRoundTrip.DeclarationsRoundTrip` |
| Parser.RegisterTable | parser.py:122-130 | A declaration writes its name and type into the array table when it has a size and into the scalar table otherwise, leaving the other table as it was |
| Parser.UndeclaredKept | parser.py:122-130 | A name that the list does not declare keeps its entry, or stays absent |
| Parser.LastDeclarationWins | parser.py:127-130 | The last declaration of a name decides its type: a redeclaration overwrites the earlier one |
| Parser.TablesGrow | parser.py:122-130 | Declarations never remove entries: the keys afterwards are the old keys plus exactly the declared names |
| Parser.RegisterAllConcat | parser.py:114-120 | The actions of two lists in a row are those of the concatenated list |
| Parser.ResolveAfterDeclare | parser.py:253-256 | After a scalar declaration of `x` with type `t`, resolving `x` gives `Local(x, t)` |
| Parser.UnknownVariableFails | parser.py:253-257 | Resolving a plain name absent from the scalar table fails with an unknown-variable error naming it |
| Parser.ArrayReferenceChecks | parser.py:259-271 | An unknown array is reported first, whatever the index; a known array indexed by an unknown name reports that name; otherwise the reference resolves to the placeholder |
| Parser.ProcedureSpec | parser.py:90-92 | A procedure's tables are those after its arguments and then its locals, and its body agrees with them |
| Parser.ProceduresSpec | parser.py:82-88 | The procedure list never moves backwards; its tables are stated by `Parser.ProceduresTables`, its scoping by `Parser.ProceduresScoped` and its content by `ParserRoundTrip.ProceduresRoundTrip` |
| Parser.MainSpec | parser.py:94-96 | `main` is recorded with the name `main`; its body agrees with the tables after its locals |
| Parser.ProgramBody | parser.py:77-80 | `procedures main` as far as the `program` action: it ends within the stream, records `main` under that name, and `main`'s body agrees with the final tables |
| Parser.ProgramSpec | parser.py:77-80 | A program is accepted exactly when `procedures main` parses, consumes the whole token stream and the lexer reached the end of the text |
| Parser.ProceduresStep | parser.py:86-88 | Proof helper for the tables, scoping and round-trip lemmas, unfolding the production once: at `DEF PID` the list is that procedure followed by the list parsed in the tables it left |
| Parser.ProceduresCons | parser.py:86-88 | At `DEF PID` a failing procedure fails the list with its error, and a successful one is put in front of the rest |
| Parser.ProceduresNil | parser.py:82-84 | Proof helper for the `ParseProcedures` loop and the round-trip lemmas, unfolding the production once: where `DEF PID` does not follow, the list is empty and the tables are unchanged |
| Parser.ProceduresTables | parser.py:82-92 | Declarations accumulate across procedures: the tables after the list are those after all its declarations, in order |
| Parser.ProceduresScoped | parser.py:82-92 | Each procedure's body is resolved against every declaration up to and including its own |
| Parser.ProgramTables | parser.py:72-80 | The final tables hold every declaration of every procedure and then of `main`, in order; `main`'s body agrees with them |
| Parser.ImpParser.constructor | parser.py:72-75 | Both tables start empty and no program is recorded |
| Parser.ImpParser.Declare | parser.py:122-130 | One declaration action updates the tables as `Register` says and leaves `code` alone |
| Parser.ImpParser.DeclareAll | parser.py:114-120 | A list of declaration actions, in order, updates the tables as `RegisterAll` says |
| Parser.ImpParser.ParseProcedure | parser.py:90-92 | The result and the new tables are those of `ProcedureSpec` from the old tables |
| Parser.ImpParser.ParseMain | parser.py:94-96 | The result and the new tables are those of `MainSpec` from the old tables |
| Parser.ImpParser.ParseProcedures | parser.py:82-88 | The loop builds the list and the tables that `ProceduresSpec` gives from the old tables |
| Parser.ImpParser.Parse | parser.py:77-80 | Succeeds exactly when `ProgramSpec` does, with its program and its final tables; on failure the error is the same. `code` is set as soon as `procedures main` has parsed, even when a stray token or an illegal character follows; it is unchanged when `procedures main` fails |
| ParserRoundTrip.ValueRoundTrip | parser.py:241-251 | A kept value takes one token, which is its printed form |
| ParserRoundTrip.ExpressionRoundTrip | parser.py:193-215 | An expression consumed exactly its printed form: left operand, operator symbol, right operand |
| ParserRoundTrip.ConditionRoundTrip | parser.py:217-239 | A condition consumed exactly three tokens: left operand, comparison, right operand |
| ParserRoundTrip.CommandsRoundTrip | parser.py:136-142 | A command list consumed exactly its commands' printed forms, in source order |
| ParserRoundTrip.BlockRoundTrip | parser.py:158-161 | A braced body consumed exactly `{`, its commands, `}` |
| ParserRoundTrip.CommandRoundTrip | parser.py:144-179 | A command consumed exactly its printed form |
| ParserRoundTrip.AssignRoundTrip | parser.py:144-146 | An assignment consumed exactly target, `=`, expression |
| ParserRoundTrip.IfRoundTrip | parser.py:148-156 | A conditional consumed exactly its printed form |
| ParserRoundTrip.IfRestRoundTrip | parser.py:148-156 | Given the spans of its head and first branch, a conditional is head, `{`, first branch, `}` or head, `{`, first branch, `else`, second branch, `}` |
| ParserRoundTrip.WhileRoundTrip | parser.py:158-161 | A `while` loop consumed exactly its printed form |
| ParserRoundTrip.ForRoundTrip | parser.py:163-171 | A counted loop consumed exactly its printed form, direction included |
| ParserRoundTrip.ForRestRoundTrip | parser.py:163-171 | The same, given its head and start value |
| ParserRoundTrip.DeclarationRoundTrip | parser.py:122-130 | A declaration consumed exactly type, name and, for an array, `[`, size, `]` |
| ParserRoundTrip.DeclListRoundTrip | parser.py:114-120 | A declaration list consumed exactly its declarations in source order, separated by commas |
| ParserRoundTrip.ArgsRoundTrip | parser.py:106-112 | An argument list consumed exactly `(`, its declarations, `)` |
| ParserRoundTrip.DeclarationsRoundTrip | parser.py:98-104 | A declaration part consumed nothing when empty, and `with` and its declarations otherwise |
| ParserRoundTrip.ProcedureRoundTrip | parser.py:90-92 | A procedure consumed exactly `def`, its name, arguments, locals and body |
| ParserRoundTrip.ProceduresRoundTrip | parser.py:82-88 | A procedure list consumed exactly its procedures' printed forms, in source order |
| ParserRoundTrip.MainRoundTrip | parser.py:94-96 | `main` consumed exactly `def main ( )`, its locals and its body |
| ParserRoundTrip.ProgramRoundTrip | parser.py:77-80 | The whole token stream is exactly the printed form of the parsed program |
| Wasm.WasmGenerator.constructor | wasm_generator.py:2-18 | After construction `code` is exactly `ModuleText(prog)`: the header, one block per procedure in list order (its `param` line before its `local` line), `main`'s block, the export, the closing line |
| Wasm.WasmGenerator.ExtractVariables | wasm_generator.py:20-23 | Appends exactly the declaration line of the list to `code` and nothing else |
| Wasm.HeaderFirst | wasm_generator.py:3-5 | The module text starts with the header, so its first line is `(module` |
| Wasm.ModuleLayout | wasm_generator.py:7-18 | After the header come exactly the procedure blocks, then `main`'s block, the export of `$main` and the closing line |
| Wasm.ProcBlocksConcat | wasm_generator.py:7-11 | The blocks of two lists of procedures are the blocks of the first, then of the second |
| Wasm.ProcBlocksCons | wasm_generator.py:7-11 | Exactly one block per procedure, in list order |
| Wasm.MainAsProcedure | wasm_generator.py:13-16 | `main`'s block is the block of a procedure named `$main` with no parameters: locals only, never `param` |
| Wasm.DeclLineEmpty | wasm_generator.py:22-23 | Nothing is written for a declaration list exactly when it is empty |
| Wasm.DeclLineOne | wasm_generator.py:21-23 | One declaration is one `(kind $name type)` entry followed by ` \n` |
| Wasm.DeclLineCons | wasm_generator.py:21-23 | Entries are in list order, separated by single spaces |
| Wasm.EntryCounts | wasm_generator.py:21 | An entry of a plain name has no line break and exactly one opening parenthesis |
| Wasm.DeclLineShape | wasm_generator.py:20-23 | A declaration line is one line (none for an empty list) holding one entry per declaration |
| Wasm.ProcBlockShape | wasm_generator.py:8-11 | A procedure block has its `func` line, a `param` line exactly when there are arguments, a `local` line exactly when there are locals and the closing line, with one entry per declaration |
| Wasm.ProcBlocksIgnoreBodies | wasm_generator.py:7-11 | Procedure blocks depend only on names, arguments and locals |
| Wasm.ModuleTextIgnoresBodies | wasm_generator.py:7-16 | Changing any command body leaves the module text unchanged |

## Left out

- Call commands and the second `args` rule (parser.py:181-191) are left out. The action returns the raw production object, and the rule's nonterminal clashes with the declaration `args`. A `call` is a `CallNotModelled` error here.
- The LALR machinery of the parsing library is left out: table construction, conflict resolution and the regular-expression engine. The grammar is read as a recursive-descent parser with the lookahead the grammar needs (`DEF MAIN` versus `DEF PID`, `PID "["` versus `PID`, and a command list ending where no command can start). The rule table is read as an ordered list of patterns.
- The lexer's token generator is lazy. The model scans the whole text into a token list and an end marker (end of text, or the illegal character). A lexical error is reported when the parser reaches that point, which approximates when the generator would raise it.
- Float literal values are not converted to floating point (parser.py:54, parser.py:247). A float token keeps its digit text, and a float constant keeps that text.
- `\d` is modelled as the ASCII digits `0`-`9`; the regular-expression engine also accepts other Unicode decimal digits.
- The values of array references (parser.py:263, parser.py:270) are left out. Only the name checks are modelled, and the result is a placeholder value.
- Exception message strings are left out. They are modelled as `ParseError` variants.
- A syntax error at the end of input is modelled as `UnexpectedEnd`. There the `error` handler receives no token.
- The `parse` driver that chains the lexer, the parser and the generator (parser.py:277-283) is left out; it is plumbing.
- The commented-out comment rule (parser.py:8-10) is left out.
- The round-trip lemmas exclude programs with array element references, because the parser keeps nothing of the index.
- The symbol tables are shared across procedures, as in the code: the model follows the code, not a per-procedure scope.
- `Wasm.ProcBlock` writes procedure names without `$`, as the generator does (wasm_generator.py:8). This is modelled as written.
- Wasm.ProcBlockShape: counts line breaks and parentheses only for names without either character. The lexer's `PID` alphabet guarantees this (parser.py:50).
- Wasm.DeclLineShape: the same restriction to such names.
- Wasm.EntryCounts: the same restriction to such names.
- Parser.ParseDeclList, Parser.ParseArgs, Parser.ParseDeclarations, Parser.ProcedureSpec, Parser.ProceduresSpec, Parser.MainSpec, Parser.ProgramBody, Parser.ProgramSpec, Parser.ProgramTables, ParserRoundTrip.ProgramRoundTrip, Parser.ImpParser.ParseProcedure, Parser.ImpParser.ParseMain, Parser.ImpParser.ParseProcedures, Parser.ImpParser.Parse: these follow the corrected array production `Parser.ParseDeclaration`, so they accept programs that declare arrays, such as `def main ( ) with int a[3] { write 1 }`. The code as written fails at the first array declaration (see Findings). That failure is stated for one declaration only, by `Parser.ParseDeclarationAsWritten`, not for whole declaration lists or programs.
- Parser.ParseIdentifier, Parser.ParseValue, Parser.ProgramSpec, Parser.ImpParser.Parse: a bare name is resolved as soon as the parser sees that no `[` follows it. The parsing library first reads that next token, because the state after `PID` has both a shift on `[` and reductions. If the token cannot follow an identifier, the `error` handler (parser.py:273-274) raises before the unknown-variable check (parser.py:253-257) runs. So for `def main ( ) { write y ; }` with `y` undeclared, the code reports a syntax error at `;` and the model reports `UnknownVariable("y")`. The same holds when the input ends right after the name, or an illegal character follows it. The model does not compute the parser's lookahead sets, so it does not capture this order of syntax and name errors. Successful parses are unaffected.
- Command bodies are not lowered to WebAssembly instructions; the generator never reads them.

## Findings

| source | as written | input that shows it | evidently intended | confidence | as-written member | corrected member |
|---|---|---|---|---|---|---|
| parser.py:122-125 | The array declaration action records the name in `local_arrays` and then reads `p.NUM`, which is not a symbol of its rule `type PID "[" NUM_INT "]"`, so every array declaration raises | `def main ( ) with int a[3] { write 1 }` | record the size given by the `NUM_INT` token | not executed | Parser.ParseDeclarationAsWritten | Parser.ParseDeclaration |
