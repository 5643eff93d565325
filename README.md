# golf front end, modelled in Dafny

golf is a small compiler for a pattern-matching language. It has four stages:

- **Lexer.** It turns source text into tokens.
- **Parser.** It builds an expression/statement tree, with an operator-precedence loop.
- **Checker.** It resolves every identifier through a chain of scopes.
- **Transpiler.** It emits Lua, where each function becomes a `setmetatable({}, {__call = ...})` dispatch table.

This project models those four stages and proves properties of the models. There is one Dafny module per Rust source file:

| module | file | models |
|---|---|---|
| `Wrappers` | `wrappers.dfy` | `Option`/`Result` with `:-` |
| `Chars` | `chars.dfy` | character classes, UTF-8 byte length, decimal digit text |
| `Tokens` | `tokens.dfy` | `TokenType`, `TokenPosition`, `Token`, the error value |
| `Tokenizers` | `tokenizer.dfy` | the character cursor with its snapshot stack (a class) |
| `Matchers` | `matcher.dfy` | the seven recognisers and `try_match_token` |
| `Lexers` | `lexer.dfy` | the standard recogniser list, `Lexer::match_token` and the token iterator (a class) |
| `Travelers` | `traveler.dfy` | the clamped token cursor (a class) |
| `Ast` | `ast.dfy` | the syntax tree and the operator table |
| `Operations` | `operations.dfy` | what the parser's two-stack operation loop computes |
| `Parsers` | `parser.dfy` | the recursive-descent parser (a class) |
| `SymTabs` | `symtab.dfy` | the scope chain; the table being filled is a class |
| `Checkers` | `checker.dfy` | the name checker |
| `Transpilers` | `transpiler.dfy` | the Lua lowering |

Several source types mutate their fields, so they are classes whose methods change those fields:

- the tokenizer,
- the lexer,
- the token cursor,
- the parser,
- the symbol table,
- the checker and the transpiler, which hold the tree.

Each recogniser method is proved against a pure scan function of the text and the start index. The lexer's methods are proved against `NextToken`/`Tokenize`, and the parser's against a pure recursive-descent reading of the token list (`StatementsAt`, `ExpressionAt`, `TermAt`, ...). The checker's walk is proved against `CheckExpr`/`CheckStmts`, and the Lua methods against `ExprText`/`ProgramText`. Properties are then proved about those functions.

The model follows the code, and in some places the code and the language's prose description differ:

- **`-3` is two tokens.** The operator recogniser runs before the number recognisers, so `-3` lexes as the operator `-` and then the int `3` (`Lexers.SignIsOperator`).
- **One pending operator.** The operation loop keeps only one operator pending. So `a == b + c * d` groups as `a == ((b + c) * d)` (`Operations.ThreeLevels`).
- **Literal arm parameters are compared with the wrong argument.** The `continue` skips the index increment, so the literal at position k is compared with `__args[2 + the number of non-literals before it]`. Literals with no non-literal between them share a slot, and any literal that comes after another literal is compared with the wrong argument: in `|0, x, 1|` the `1` is compared with `__args[3]`, not its own `__args[4]`. The guards are separate `if` blocks, so they act as a disjunction (`Transpilers.GuardIndex`, `Transpilers.LiteralGuardsShareIndex`, `Transpilers.LiteralAfterLiteralMisplaced`).
- **`new` can reuse slots.** When `SymTab::new` gets a repeated name, the slot `add_name` hands out next can already be taken (`SymTabs.RepeatedNameReusesSlot`).
- **Renamed names can collide.** An assigned `while` and a user name `_while` print as the same Lua name (`Transpilers.LuaNameCollides`).
- **`expect_contents` fails at the start.** It calls `get`, which refuses index 0, so it fails at the first token for any non-empty sequence whose first text matches (`Travelers.Traveler.ExpectContents`).
- **`commit_snapshot` tolerates an empty stack.** On an empty stack it does nothing (`Tokenizers.Tokenizer.CommitSnapshot`).
- **An unterminated string still gives a token.** It holds the text read so far (`Matchers.UnterminatedString`).

A `panic!`, `unwrap` on `None` or `unreachable!()` becomes an error result carrying the source's message: the `Fatal`/`Panic` outcomes in the lexer and an `Err` elsewhere.

## Model

| member | source | states |
|---|---|---|
| Tokens.DefaultPositionDisplay | src/golf/lexer/token.rs:27-40 | the default position is line 1, column 0, and it displays as `[1, 0]` |
| Tokens.DisplayPositionRoundTrip | src/golf/lexer/token.rs:36-40 | the `[line, col]` text of every position reads back to that position, so the display is injective |
| Tokens.SameTokenIgnoresPositionAndContent | src/golf/lexer/token.rs:72-76 | two tokens are equal exactly when their types are, whatever their positions and contents |
| Chars.Utf8Len | src/golf/lexer/matcher.rs:193 | a char takes 1 to 4 bytes, and exactly 1 iff it is below U+0080 |
| Chars.Utf8LengthOne | src/golf/lexer/matcher.rs:193 | a string is one byte long iff it is a single ASCII char |
| Chars.RunEnd | src/golf/lexer/matcher.rs:21-32 | the end of the maximal run of chars with a property, from an index: every char before it has the property and the char at it does not |
| Chars.RunEndUnique | src/golf/lexer/matcher.rs:21-32 | any index that bounds a maximal run is the one `RunEnd` computes |
| Chars.NatToString | src/golf/lexer/matcher.rs:51-62 | the decimal text of a number is non-empty, all digits, and starts with `0` only for zero |
| Chars.DigitsValueOfNatToString | src/golf/lexer/matcher.rs:51-62 | parsing the decimal text of `n` gives `n` back |
| Chars.NatToStringOfDigits | src/golf/lexer/matcher.rs:51-62 | printing the parsed value of a digit run gives the run without its leading zeros |
| Chars.DigitsInjective | src/golf/lexer/matcher.rs:51-62 | two digit strings without leading zeros that have the same value are the same string |
| Chars.NatToStringLength | src/golf/lexer/matcher.rs:51-62 | the decimal text of `n` has the length that `n`'s magnitude dictates |
| Ast.FromStrTable | src/golf/parser/ast.rs:82-101 | `from_str` answers for exactly the 16 operator texts, and the precedence it gives is the table's (`^` 0, `* / %` 1, `+ -` 2, `== ~=` 3, comparisons 4, `. ++ <| |>` 5) |
| Ast.FromStrOnto | src/golf/parser/ast.rs:82-101 | every operand is named by some operator text, with its precedence |
| Ast.ToStringRoundTrip | src/golf/parser/ast.rs:82-121 | `to_string` is undefined exactly for `++`, `<|` and `|>`; for the others `from_str(to_string(op))` gives `op` back, except Combine, which prints `..`, a text `from_str` rejects |
| Tokenizers.PositionInCounts | src/golf/lexer/tokenizer.rs:72-85 | after consuming a prefix, the line is 1 plus its newlines and the column is the number of chars since the last newline |
| Tokenizers.PositionInPrefix | src/golf/lexer/tokenizer.rs:72-85 | the position depends only on the chars consumed so far |
| Tokenizers.Tokenizer.constructor | src/golf/lexer/tokenizer.rs:36-43 | a fresh tokenizer is at index 0, at the default position, with no snapshots |
| Tokenizers.Tokenizer.PeekN | src/golf/lexer/tokenizer.rs:45-62 | `peek_n(n)` is None iff `index + n >= len`, and otherwise the char there; it changes nothing |
| Tokenizers.Tokenizer.Advance | src/golf/lexer/tokenizer.rs:72-85 | `advance(a)` moves the index by exactly `a` when that stays in bounds and does nothing otherwise; the position stays that of the consumed prefix |
| Tokenizers.Tokenizer.Read | src/golf/lexer/tokenizer.rs:64-70 | `read` at the end gives None and changes nothing; otherwise it gives the current char, moves one place and steps the position over that char |
| Tokenizers.Tokenizer.TakeSnapshot | src/golf/lexer/tokenizer.rs:87-89 | pushes the current index and position |
| Tokenizers.Tokenizer.RollbackSnapshot | src/golf/lexer/tokenizer.rs:95-99 | pops the top snapshot and restores its index and position |
| Tokenizers.Tokenizer.CommitSnapshot | src/golf/lexer/tokenizer.rs:101-103 | pops the top snapshot and keeps the cursor; on an empty stack it does nothing |
| Tokenizers.SnapshotRollbackRestores | src/golf/lexer/tokenizer.rs:87-99 | take, any advance, then rollback leaves the index, position and snapshot stack as they were |
| Matchers.FormatInt | src/golf/lexer/matcher.rs:51-62 | the int text is out of range iff its value exceeds `i64::MAX` (after `-`) or `u64::MAX`; otherwise it is the digits without leading zeros, after `-` only for a minus sign |
| Matchers.ScanProgress | src/golf/lexer/matcher.rs:20-287 | every recogniser that finds a lexeme consumes at least one char and stays inside the text |
| Matchers.WhitespaceRun | src/golf/lexer/matcher.rs:20-32 | whitespace matches iff the next char is whitespace; it then takes the maximal whitespace run and yields empty content |
| Matchers.IdentifierRun | src/golf/lexer/matcher.rs:271-287 | the identifier matcher takes the maximal run of alphanumeric, `_`, `?` and `'` chars, and fails iff that run is empty |
| Matchers.FirstCandidateIsFirst | src/golf/lexer/matcher.rs:217-230 | the candidate chosen is a prefix of the text and no earlier candidate is |
| Matchers.ConstantFirstCandidate | src/golf/lexer/matcher.rs:217-230 | the constant matcher fails iff no candidate is a prefix of the text; otherwise it takes the first such candidate in list order, and exactly its length |
| Matchers.KeyBoundary | src/golf/lexer/matcher.rs:247-266 | the keyword matcher finds exactly what the constant matcher finds, unless the next char is alphanumeric, `_` or `?` |
| Matchers.TrueOneIsNotBoolean | src/golf/lexer/matcher.rs:255-259 | `true1` is not a boolean |
| Matchers.IntLiteralShape | src/golf/lexer/matcher.rs:38-67 | optional sign, then the maximal digit run; no digits is no match; a value past the i64/u64 range is fatal; otherwise the content is the digits without leading zeros, after `-` only for a minus sign |
| Matchers.ScanIntOf | src/golf/lexer/matcher.rs:38-67 | the digits the int matcher gathers decide its outcome |
| Matchers.FloatRunByRun | src/golf/lexer/matcher.rs:94-104 | the float loop takes the maximal run of digits and points, and fails fatally iff the run holds a second point |
| Matchers.ScanFloatByRun | src/golf/lexer/matcher.rs:73-137 | the char-by-char float matcher equals the whole-run description: sign, a digit or a point read as `0.`, the maximal digit/point run, fatal on two points |
| Matchers.FloatTwoPointsFatal | src/golf/lexer/matcher.rs:97-99 | `1.2.3` is the "illegal decimal point" error |
| Matchers.NoPointAllDigits | src/golf/lexer/matcher.rs:94-108 | a run of digits and points that holds no point is all digits, so the branch without a point reads an integer |
| Matchers.FloatWithoutPointIsInt | src/golf/lexer/matcher.rs:122-136 | a digit run with no point gives the same token as the int matcher |
| Matchers.FloatBarePoint | src/golf/lexer/matcher.rs:86-107 | `.` or `0.` followed by no digit is no match |
| Matchers.FloatKeepsText | src/golf/lexer/matcher.rs:108-121 | `12.5` is a float token with content `12.5` |
| Matchers.ScanBodyEscaped | src/golf/lexer/matcher.rs:159-186 | reading an escaped body up to the closing quote decodes the escapes and stops just past the quote |
| Matchers.StringRoundTrip | src/golf/lexer/matcher.rs:143-200 | escaping any text and quoting it, anywhere in the source, lexes back to exactly that text |
| Matchers.RawBody | src/golf/lexer/matcher.rs:160-164 | a raw body is copied up to the next `"` with no escape processing |
| Matchers.RawStringCopies | src/golf/lexer/matcher.rs:145-164 | `r"x"` lexes to `x` verbatim |
| Matchers.UnknownEscapeIsFatal | src/golf/lexer/matcher.rs:166-174 | a backslash before any char other than `\ ' " n r t` is fatal |
| Matchers.CharLiteralOneByte | src/golf/lexer/matcher.rs:187-199 | `'c'` is a char literal iff `c` is one byte; otherwise it is the "invalid char literal" error |
| Matchers.UnterminatedString | src/golf/lexer/matcher.rs:159-190 | a string literal without its closing quote still yields a token holding everything read |
| Matchers.UnterminatedBody | src/golf/lexer/matcher.rs:159-186 | a body without a quote or escape runs to the end of the text |
| Matchers.MatchWhitespace | src/golf/lexer/matcher.rs:20-32 | the method's token and cursor are those of `ScanWhitespace` |
| Matchers.ReadSign | src/golf/lexer/matcher.rs:40-47 | a `-` or `+` is consumed and reported as negative or positive; anything else is left |
| Matchers.ReadDigits | src/golf/lexer/matcher.rs:48-50 | the maximal digit run is consumed and returned |
| Matchers.MatchInt | src/golf/lexer/matcher.rs:38-67 | the method's outcome and cursor are those of `ScanInt` |
| Matchers.ReadFloatRun | src/golf/lexer/matcher.rs:94-104 | the float loop's run and its second-point panic are those of `FloatRun` |
| Matchers.MatchFloat | src/golf/lexer/matcher.rs:73-137 | the method's outcome and cursor are those of `ScanFloat` |
| Matchers.ReadBody | src/golf/lexer/matcher.rs:157-186 | the body loop's text and its escape panic are those of `ScanBody` |
| Matchers.MatchString | src/golf/lexer/matcher.rs:143-200 | the method's outcome and cursor are those of `ScanString` |
| Matchers.MatchConstant | src/golf/lexer/matcher.rs:217-230 | the method's outcome and cursor are those of `ScanConstant` |
| Matchers.MatchKey | src/golf/lexer/matcher.rs:247-266 | the method's outcome and cursor are those of `ScanKey` |
| Matchers.MatchIdentifier | src/golf/lexer/matcher.rs:271-287 | the method's outcome and cursor are those of `ScanIdentifier` |
| Matchers.TryMatch | src/golf/lexer/matcher.rs:14-16 | dispatch: the outcome of any recogniser is that of its scan function, and every token carries the position where the attempt began |
| Matchers.TryMatchToken | src/golf/lexer/tokenizer.rs:109-128 | at the end: an EOF token at `(index, index)`; otherwise the recogniser's scan; a failed match leaves the cursor where it was; the snapshot stack ends as it began |
| Lexers.StandardMatchers | src/golf/lexer/lexer.rs:8-81 | every keyword, operator and symbol the recognisers `lexer()` installs is non-empty, so each of them consumes what it finds |
| Lexers.StandardEntries | src/golf/lexer/lexer.rs:70-79 | the order is EOL, indent, whitespace, operator, symbol, float, int, string, boolean, identifier |
| Lexers.NextToken | src/golf/lexer/lexer.rs:119-134 | one step of the iterator never moves backwards, and a token it yields moves the index forwards |
| Lexers.PrependTwice | src/golf/lexer/lexer.rs:119-134 | gathering tokens in two batches is gathering them at once |
| Lexers.FirstScanProgress | src/golf/lexer/lexer.rs:97-105 | a lexeme the lexer finds is non-empty and inside the text |
| Lexers.FirstFoundIsFirst | src/golf/lexer/lexer.rs:97-105 | `match_token` finds nothing iff every recogniser finds nothing; otherwise it returns the outcome of a recogniser all of whose predecessors found nothing |
| Lexers.NextTokenNotWhitespace | src/golf/lexer/lexer.rs:124-131 | `next` never yields a whitespace or EOF token |
| Lexers.TokenizeNotWhitespace | src/golf/lexer/lexer.rs:119-134 | the collected stream holds no whitespace and no EOF token |
| Lexers.PastLayout | src/golf/lexer/lexer.rs:70-72 | before a non-whitespace char, the EOL, indent and whitespace recognisers find nothing |
| Lexers.SignIsOperator | src/golf/lexer/lexer.rs:30-48 | a `-`, or a `+` not followed by `+`, is always a one-char operator, never part of a number |
| Lexers.PointIsOperator | src/golf/lexer/lexer.rs:30-48 | a `.` is always the operator `.`, never the start of a float |
| Lexers.NoOperatorStart | src/golf/lexer/lexer.rs:30-48 | text that starts with no operator's first char matches no operator |
| Lexers.NoSymbolStart | src/golf/lexer/lexer.rs:14-28 | text that starts with no symbol's first char matches no symbol |
| Lexers.OperatorsStart | src/golf/lexer/lexer.rs:30-48 | the operator list has 17 entries, with `.` at 12, each starting with one of the operator chars |
| Lexers.SymbolsStart | src/golf/lexer/lexer.rs:14-28 | the symbol list has 13 one-char entries |
| Lexers.DigitStartsNoConstant | src/golf/lexer/lexer.rs:14-48 | no operator or symbol starts with a digit |
| Lexers.DigitGoesToNumbers | src/golf/lexer/lexer.rs:73-76 | at a digit the float recogniser decides, and the int recogniser answers only when the float one finds nothing |
| Lexers.NextTokenFound | src/golf/lexer/lexer.rs:119-134 | a token found is yielded at the position where it starts, and the stream continues after it |
| Lexers.NextTokenNotFound | src/golf/lexer/lexer.rs:120-123 | when no recogniser matches, the stream ends |
| Lexers.NewlineIsEol | src/golf/lexer/lexer.rs:12 | a `\n` is an EOL token, not whitespace |
| Lexers.StrayCharacterEndsStream | src/golf/lexer/lexer.rs:120-123 | a char no recogniser accepts ends the token stream there |
| Lexers.Lexer.constructor | src/golf/lexer/lexer.rs:90-95 | a new lexer holds the tokenizer and no recognisers |
| Lexers.Lexer.AddMatcher | src/golf/lexer/lexer.rs:111-113 | pushes one recogniser at the end |
| Lexers.Lexer.MatchToken | src/golf/lexer/lexer.rs:97-105 | the first recogniser success, `FirstFound(Attempts(...))`, positioned where the attempt began; no match leaves the cursor; no recognisers is no match |
| Lexers.Lexer.Next | src/golf/lexer/lexer.rs:119-134 | the iterator step is `NextToken`, and the cursor ends where it says |
| Lexers.Lexer.Collect | src/golf/lexer/lexer.rs:116-134 | collecting the iterator gives `Tokenize` |
| Lexers.NewLexer | src/golf/lexer/lexer.rs:8-81 | `lexer(data)` is a fresh lexer at the start of `data` with the standard recognisers |
| Lexers.Lex | src/golf/lexer/lexer.rs:8-81 | lexing a text is `Tokenize(StandardMatchers(), data, 0)` |
| Travelers.CurrentAt | src/golf/parser/traveler.rs:39-44 | the token at `top`, or the last token once `top` has run past the end |
| Travelers.Traveler.constructor | src/golf/parser/traveler.rs:12-17 | a new cursor is at 0 |
| Travelers.Traveler.Next | src/golf/parser/traveler.rs:19-25 | moves forwards iff `top < len` and reports whether it moved |
| Travelers.Traveler.Prev | src/golf/parser/traveler.rs:27-33 | moves back iff `top > 0` and reports whether it moved |
| Travelers.Traveler.Remaining | src/golf/parser/traveler.rs:35-37 | `len - top + 1`: at least 1, and exactly 1 at the end |
| Travelers.Traveler.Current | src/golf/parser/traveler.rs:39-44 | the current token is `CurrentAt(tokens, top)` |
| Travelers.Traveler.Get | src/golf/parser/traveler.rs:46-49 | `get(i)` needs `0 < i < len` and gives the token at `i`, which is not the first |
| Travelers.Traveler.Expect | src/golf/parser/traveler.rs:55-61 | succeeds iff the current token has the type, giving its content; otherwise an error at the current token's position |
| Travelers.Traveler.ExpectContent | src/golf/parser/traveler.rs:63-69 | succeeds iff the current token has the text; otherwise an error at the current token's position |
| Travelers.Traveler.ExpectContents | src/golf/parser/traveler.rs:71-88 | succeeds iff the tokens from the cursor hold the texts and the cursor is not at 0 or the sequence is empty, giving those tokens |
| Operations.ShiftInfix | src/golf/parser/parser.rs:343-369 | one round of the loop keeps the infix reading of the state, with the new operator and term appended |
| Operations.ReduceKeepsOrder | src/golf/parser/parser.rs:316-388 | read back as infix, the loop's result is the first two operands and every operator and term in the order read: nothing lost, duplicated or reordered |
| Operations.NonTighteningFoldsLeft | src/golf/parser/parser.rs:343-364 | when no operator binds tighter than the one before it, every fold is on the left |
| Operations.SubtractionFoldsLeft | src/golf/parser/parser.rs:343-364 | `a - b - c` is `(a - b) - c` |
| Operations.TighterBindsRight | src/golf/parser/parser.rs:366-384 | `a + b * c` is `a + (b * c)` |
| Operations.LooserFoldsLeft | src/golf/parser/parser.rs:343-364 | `a * b + c` is `(a * b) + c` |
| Operations.ThreeLevels | src/golf/parser/parser.rs:316-388 | `a == b + c * d` is `a == ((b + c) * d)` |
| Parsers.SkipEnd | src/golf/parser/parser.rs:27-40 | where layout skipping stops: at or after the start, within the tokens |
| Parsers.SkipEndStops | src/golf/parser/parser.rs:27-40 | everything skipped is a `\n`, EOL or indent token, and the token it stops at is not one |
| Parsers.ProgramAt | src/golf/parser/parser.rs:16-25 | an empty token list parses to no statements, and success means every token was read |
| Parsers.StatementsReadAll | src/golf/parser/parser.rs:16-25 | the statement loop either fails or reads to the end, keeping the statements read before in front; at the end it stops with what it has |
| Parsers.ExpressionAtEnd | src/golf/parser/parser.rs:42-49 | an expression with only layout left is `EOF`, and the cursor is at the end |
| Parsers.TermCases | src/golf/parser/parser.rs:146-221 | at the end `EOF` with nothing consumed; each literal kind gives its literal and consumes one token; an empty char literal is the `remove(0)` panic; `{` gives a function; any other symbol but `(` is the "unexpected symbol" error at it, and any other token kind the "unexpected" error |
| Parsers.TermIdentifier | src/golf/parser/parser.rs:182-195 | an identifier is bare before `,`, `)` or the end, indexed before `[`, called before a token that can start an argument, and bare otherwise |
| Parsers.TermGroup | src/golf/parser/parser.rs:198-214 | after `(` an error inside is passed on; a missing `)` is an error at the token found; after the `)` comes an index, a call, or the inner expression alone |
| Parsers.IndexShape | src/golf/parser/parser.rs:78-95 | a result indexes `id` with the expression after the `[`, and the last token read is the `]` |
| Parsers.TryCallCases | src/golf/parser/parser.rs:61-76 | a token that cannot start an argument gives the callee alone with the cursor unmoved; otherwise a result is a call on the callee with no `EOF` argument |
| Parsers.CallRounds | src/golf/parser/parser.rs:268-314 | a `\n` ends the call where it stands; the first argument is read by juxtaposition and each later one only after a `,`; any other token after an argument ends the call, and the `prev`/`next` probe leaves the cursor where it was |
| Parsers.ArgsKeep | src/golf/parser/parser.rs:268-314 | a result is a call on the caller, with the arguments read before kept in front |
| Parsers.ArgsNeverEnd | src/golf/parser/parser.rs:277-292 | no argument of a call is `EOF`: the end of the text ends the argument list instead |
| Parsers.ParamsSeparated | src/golf/parser/parser.rs:103-110 | any parameter followed by `,` is kept and reading goes on after the `,`; one followed by `\|` is kept and is the last; one followed by anything else is the `expect_content(",")` error at that token |
| Parsers.IdentifierParam | src/golf/parser/parser.rs:103-110 | an identifier parameter followed by `,` or `\|` is read as itself, so the separator test is at the next token |
| Parsers.ParamsEndAtBar | src/golf/parser/parser.rs:103-110 | the parameter loop keeps the parameters read before in front and ends on a `\|` |
| Parsers.ArmShape | src/golf/parser/parser.rs:97-120 | without an opening `\|` it is an error at the token found; a result is an arm holding the parameters read after the `\|`, with an expression statement as its body |
| Parsers.ArmsEndAtBrace | src/golf/parser/parser.rs:129-138 | the loop of a function keeps the arms and statements read before in front and ends on a `}` |
| Parsers.FunctionShape | src/golf/parser/parser.rs:122-144 | a result is a function whose arms are a block, and the last token read is the `}` |
| Parsers.AssignmentCases | src/golf/parser/parser.rs:223-241 | a `\n` after `=` is the "expected expression" error at it; otherwise a result assigns to `left` the expression that follows the `=` |
| Parsers.StatementCases | src/golf/parser/parser.rs:243-266 | after layout, an identifier followed by `=` is an assignment to it; an identifier followed by anything else is read again, from the identifier itself, as an expression statement; any other token starts an expression statement |
| Parsers.FoldReads | src/golf/parser/parser.rs:333-385 | the loop stops at the first token that is not an operator, and its result is what the operators and terms read from the tokens, in order, fold to |
| Parsers.OperationReads | src/golf/parser/parser.rs:316-388 | an operator text the table does not know is the `unwrap` panic; otherwise the result is `Close(Reduce(...))` of the first operand, the operator under the cursor, the term after it and the rounds read after that, each operator with its table precedence |
| Parsers.Parser.constructor | src/golf/parser/parser.rs:10-14 | the parser holds the cursor |
| Parsers.Parser.Parse | src/golf/parser/parser.rs:16-25 | the statements and the final cursor are those of `StatementsAt` |
| Parsers.Parser.SkipWhitespace | src/golf/parser/parser.rs:27-40 | the cursor ends at `SkipEnd` |
| Parsers.Parser.ParseExpression | src/golf/parser/parser.rs:42-59 | the result and the final cursor are those of `ExpressionAt` |
| Parsers.Parser.TryCall | src/golf/parser/parser.rs:61-76 | the result and the final cursor are those of `TryCallAt` |
| Parsers.Parser.ParseIndex | src/golf/parser/parser.rs:78-95 | the result and the final cursor are those of `IndexAt` |
| Parsers.Parser.ParseArm | src/golf/parser/parser.rs:97-120 | the result and the final cursor are those of `ArmAt` |
| Parsers.Parser.ParseParams | src/golf/parser/parser.rs:101-110 | the parameters and the final cursor are those of `ParamsAt` |
| Parsers.Parser.ParseParam | src/golf/parser/parser.rs:104-109 | one round of the parameter loop: the loop's outcome from before the round is its error, or the loop's outcome from after it with the parameter appended |
| Parsers.Parser.ParseFunction | src/golf/parser/parser.rs:122-144 | the result and the final cursor are those of `FunctionAt` |
| Parsers.Parser.ParseArms | src/golf/parser/parser.rs:127-138 | the arms and the final cursor are those of `ArmsAt` |
| Parsers.Parser.ParseTerm | src/golf/parser/parser.rs:146-221 | the result and the final cursor are those of `TermAt` |
| Parsers.Parser.ParseNamed | src/golf/parser/parser.rs:182-195 | the result and the final cursor are those of `NamedAt` |
| Parsers.Parser.ParseGroup | src/golf/parser/parser.rs:198-214 | the result and the final cursor are those of `GroupAt` |
| Parsers.Parser.CloseGroup | src/golf/parser/parser.rs:203-213 | the result and the final cursor are those of `GroupClose` |
| Parsers.Parser.ParseAssignment | src/golf/parser/parser.rs:223-241 | the result and the final cursor are those of `AssignmentAt` |
| Parsers.Parser.ParseStatement | src/golf/parser/parser.rs:243-266 | the result and the final cursor are those of `StatementAt` |
| Parsers.Parser.ParseExpressionStatement | src/golf/parser/parser.rs:251 | an expression read as a statement, as `ExpressionAt` reads it |
| Parsers.Parser.ParseCall | src/golf/parser/parser.rs:268-314 | the result and the final cursor are those of `ArgsAt` from no arguments |
| Parsers.Parser.ParseArgument | src/golf/parser/parser.rs:274-292 | one round of the call loop that reads an argument: the loop's outcome from before the round is the argument's error, the call at an `EOF` argument, or the loop's outcome from after it with the argument appended |
| Parsers.Parser.ParseOperation | src/golf/parser/parser.rs:316-388 | the result and the final cursor are those of `OperationAt` |
| Parsers.Parser.FoldRounds | src/golf/parser/parser.rs:331-387 | the result and the final cursor are those of `FoldAt` from the two operands and the operator read before the loop |
| Parsers.Parse | src/golf/parser/parser.rs:10-25 | the statements are those of `ProgramAt`, and an empty token list parses to no statements |
| SymTabs.LookupShift | src/golf/checker/symtab.rs:49-58 | starting the hop count higher only shifts the depth reported |
| SymTabs.GetNameNone | src/golf/checker/symtab.rs:45-58 | `get_name` is None iff no table of the chain holds the name |
| SymTabs.GetNameInnermost | src/golf/checker/symtab.rs:45-58 | `get_name` answers `(slot, depth)` iff the innermost table holding the name is `depth` parents out and holds it at `slot` |
| SymTabs.IndexMap | src/golf/checker/symtab.rs:14-25 | each listed name maps to its position; a later position wins over an earlier one |
| SymTabs.DistinctIndexMapDense | src/golf/checker/symtab.rs:14-25 | with distinct names the slots are exactly `0 .. n-1`, each used once |
| SymTabs.IndexMapSize | src/golf/checker/symtab.rs:14-25 | with distinct names the table has one entry per name |
| SymTabs.RepeatedNameReusesSlot | src/golf/checker/symtab.rs:14-43 | `new` with `x, x, y` gives `{x: 1, y: 2}`, two entries, so the next `add_name` hands out slot 2 again |
| SymTabs.SymTab.constructor | src/golf/checker/symtab.rs:14-25 | the loop fills the map with `IndexMap(names)` under the given parent |
| SymTabs.SymTab.Global | src/golf/checker/symtab.rs:27-32 | no parent and no names |
| SymTabs.SymTab.AddName | src/golf/checker/symtab.rs:34-43 | idempotent: an existing name keeps its slot and the map is unchanged; a new name gets slot `len` and is inserted; a dense table stays dense; the parent is untouched |
| SymTabs.GlobalKnowsNothing | src/golf/checker/symtab.rs:27-32 | a global table answers None for every name |
| Checkers.Checker.constructor | src/golf/checker/checker.rs:10-14 | the checker holds the tree |
| Checkers.Checker.Check | src/golf/checker/checker.rs:16-22 | verdict and final table are those of `CheckStmts` on the program |
| Checkers.Checker.CheckStatements | src/golf/checker/checker.rs:16-22 | statements in order, stopping at the first error |
| Checkers.Checker.CheckExpression | src/golf/checker/checker.rs:24-88 | verdict and final table are those of `CheckExpr` |
| Checkers.Checker.CheckFunctionArms | src/golf/checker/checker.rs:43-74 | verdict and final table are those of `CheckArms` |
| Checkers.Checker.CheckArmStatement | src/golf/checker/checker.rs:48-67 | an arm body is checked in a child table of its parameters, and other statements in the current table |
| Checkers.Checker.CheckStatement | src/golf/checker/checker.rs:90-107 | verdict and final table are those of `CheckStmt` |
| Checkers.CheckStmtsConcat | src/golf/checker/checker.rs:16-22 | checking `a + b` is checking `a` and then `b` from the table `a` leaves |
| Checkers.CheckStmtsErrStops | src/golf/checker/checker.rs:16-22 | after an error nothing more is checked |
| Checkers.CheckExprsErrStops | src/golf/checker/checker.rs:79-81 | after an error in an argument, later arguments are not checked |
| Checkers.CheckArmsErrStops | src/golf/checker/checker.rs:45-68 | after an error in an arm, later arms are not checked |
| Checkers.IdentifierChecked | src/golf/checker/checker.rs:33-36 | an identifier fails iff no table of the chain holds it, with "undeclared use" at its own position, and it binds nothing |
| Checkers.SelfReference | src/golf/checker/checker.rs:95-98 | `x = x` checks, because the target is bound before the right side is checked |
| Checkers.NonIdentifierTarget | src/golf/checker/checker.rs:100 | an assignment to anything but an identifier binds nothing and is not checked |
| Checkers.BindVisible | src/golf/checker/checker.rs:96 | binding adds the name to the current table and to nothing else |
| Checkers.ArmScopeVisible | src/golf/checker/checker.rs:51-58 | an arm body sees its identifier parameters and everything the enclosing chain sees |
| Checkers.ArmLeavesScope | src/golf/checker/checker.rs:50-61 | checking an arm leaves the current table unchanged |
| Checkers.FunctionStatementBinds | src/golf/checker/checker.rs:63-66 | an assignment among a function's arms binds its name in the enclosing table |
| Checkers.ExprExtends | src/golf/checker/checker.rs:24-88 | checking only adds names to the current table, and never changes its parent or an existing slot |
| Checkers.ExprsExtends | src/golf/checker/checker.rs:79-81 | the same for argument lists |
| Checkers.StmtExtends | src/golf/checker/checker.rs:90-107 | the same for statements |
| Checkers.StmtsExtends | src/golf/checker/checker.rs:16-22 | the same for statement lists |
| Checkers.ArmsExtends | src/golf/checker/checker.rs:45-68 | the same for a function's arms |
| Checkers.ExprAgrees | src/golf/checker/checker.rs:24-88 | the verdict, error and position included, is the reference verdict over the set of visible names, and so are the names visible afterwards: slots and depths never matter |
| Checkers.ExprsAgree | src/golf/checker/checker.rs:79-81 | the same for argument lists |
| Checkers.StmtAgrees | src/golf/checker/checker.rs:90-107 | the same for statements |
| Checkers.StmtsAgree | src/golf/checker/checker.rs:16-22 | the same for statement lists |
| Checkers.ArmsAgree | src/golf/checker/checker.rs:45-68 | the same for a function's arms |
| Checkers.ArmAgrees | src/golf/checker/checker.rs:48-67 | the same for one arm |
| Checkers.CallFibChecks | src/golf/checker/checker.rs:76-84 | `fib n` checks wherever both names are visible |
| Checkers.ArmFibParams | src/golf/checker/checker.rs:51-56 | the arm `|n|` binds just `n` |
| Checkers.RecursiveDefinitionChecks | src/golf/checker/checker.rs:43-98 | `fib = { |n| fib n }` checks in an empty global table |
| Checkers.UseBeforeDefinitionFails | src/golf/checker/checker.rs:33-36 | `a = b` with `b` unknown fails with "undeclared use" at `b` |
| Transpilers.AllOkMeaning | src/golf/transpiler/transpiler.rs:19-21 | a list of results succeeds iff every one does, with their values in order; otherwise it fails with the first error |
| Transpilers.AllOkAppend | src/golf/transpiler/transpiler.rs:19-21 | results gathered over `a + b` are those of `a`, then those of `b` |
| Transpilers.AllOkStops | src/golf/transpiler/transpiler.rs:19-21 | the first failing element decides the error |
| Transpilers.ConcatenatedAppend | src/golf/transpiler/transpiler.rs:19-21 | concatenation distributes over appending lists |
| Transpilers.JoinCommas | src/golf/transpiler/transpiler.rs:101-111 | joining comma-free parts puts exactly `n - 1` commas between `n` parts |
| Transpilers.ArgTexts | src/golf/transpiler/transpiler.rs:104-112 | one text per argument |
| Transpilers.OverloadTexts | src/golf/transpiler/transpiler.rs:122-149 | one metatable entry per block statement |
| Transpilers.LineTexts | src/golf/transpiler/transpiler.rs:159-173 | one `__call` line per block statement |
| Transpilers.Binds | src/golf/transpiler/transpiler.rs:188-205 | one entry per parameter: `local x = __args[k + 2]` for a non-operator identifier at position k, empty otherwise |
| Transpilers.GuardTexts | src/golf/transpiler/transpiler.rs:207-240 | one guard per parameter |
| Transpilers.StmtTexts | src/golf/transpiler/transpiler.rs:19-21 | one text per statement |
| Transpilers.AssignedNameLowered | src/golf/transpiler/transpiler.rs:31-47 | renaming an assigned keyword and then printing it as an identifier is printing the identifier |
| Transpilers.AssignmentText | src/golf/transpiler/transpiler.rs:29-49 | `x = v` lowers to `local X=V` and a newline, with `x` printed as any identifier, or to the error of `v` |
| Transpilers.LuaNameCollides | src/golf/transpiler/transpiler.rs:70-84 | two names print alike iff they are equal, or one is a renamed word and the other is that word after `_` |
| Transpilers.OperatorPrintsBack | src/golf/transpiler/transpiler.rs:94 | an arithmetic or comparison operation prints as `(L op R)` with an operator text the operator table reads back as the same operator |
| Transpilers.ConcatUnreachable | src/golf/transpiler/transpiler.rs:94 | `++` has no Lua form; lowering it is the unreachable error |
| Transpilers.PipesAgree | src/golf/transpiler/transpiler.rs:92-93 | `x |> f` and `f <| x` lower to the same `f(x)` |
| Transpilers.CombineComposes | src/golf/transpiler/transpiler.rs:91 | `f . g` lowers to the function that applies `g` and then `f` |
| Transpilers.CallParts | src/golf/transpiler/transpiler.rs:98-116 | a call lowers to `(CALLEE)(` with the comma-joined argument texts and then `)` |
| Transpilers.CallCommas | src/golf/transpiler/transpiler.rs:98-116 | with comma-free callee and arguments, a call holds exactly one comma fewer than it has arguments |
| Transpilers.ArmFrame | src/golf/transpiler/transpiler.rs:185-252 | an arm starts with the argument-count test `|params| + 1 == #__args` and ends with `end` |
| Transpilers.GuardIndex | src/golf/transpiler/transpiler.rs:207-240 | a literal's guard index is its own position plus 2 iff no literal comes before it |
| Transpilers.NonLiteralsCount | src/golf/transpiler/transpiler.rs:207-240 | the guard index advances at most once per parameter, and every time iff there is no literal |
| Transpilers.LiteralGuardsShareIndex | src/golf/transpiler/transpiler.rs:211-240 | in `\|0, 1\|` both literals are compared with `__args[2]` |
| Transpilers.LiteralAfterLiteralMisplaced | src/golf/transpiler/transpiler.rs:207-240 | in `\|0, x, 1\|` the `1` is compared with `__args[3]`, not with its own argument `__args[4]` |
| Transpilers.TwiceArm | src/golf/transpiler/transpiler.rs:185-252 | the arm `|n| 2 * n` lowers to the count test, `local n = __args[2]`, `return (2*n)` and `end` |
| Transpilers.TwiceFunction | src/golf/transpiler/transpiler.rs:118-183 | `{ |n| 2 * n }` lowers to the `setmetatable` table with that arm in `__call` |
| Transpilers.TwiceLowering | src/golf/transpiler/transpiler.rs:26-183 | `twice = { |n| 2 * n }` lowers to `local twice=setmetatable(...)` in full |
| Transpilers.FunctionFrame | src/golf/transpiler/transpiler.rs:118-183 | arms that are not a block are the unreachable error; otherwise the text opens with `setmetatable({}, {` and closes with `end,\n})` |
| Transpilers.ProgramAppend | src/golf/transpiler/transpiler.rs:16-24 | lowering a program is lowering its parts one after the other, stopping at the first error |
| Transpilers.ListedJoin | src/golf/transpiler/transpiler.rs:101-111 | the call loop's comma rule (a comma after every argument but the last) gives the comma-joined list |
| Transpilers.HasLiteralStep | src/golf/transpiler/transpiler.rs:211-240 | the `flag` and the guard index after one more parameter |
| Transpilers.Transpiler.constructor | src/golf/transpiler/transpiler.rs:10-14 | the transpiler holds the tree |
| Transpilers.Transpiler.Lua | src/golf/transpiler/transpiler.rs:16-24 | the loop builds `ProgramText` of the tree |
| Transpilers.Transpiler.LuaStatement | src/golf/transpiler/transpiler.rs:26-58 | gives `StmtText` |
| Transpilers.Transpiler.LuaExpression | src/golf/transpiler/transpiler.rs:60-256 | gives `ExprText` |
| Transpilers.Transpiler.LuaCall | src/golf/transpiler/transpiler.rs:98-116 | the argument loop with its `acc` counter builds `CallText` |
| Transpilers.Transpiler.LuaFunction | src/golf/transpiler/transpiler.rs:118-183 | the two loops over the block build `FunctionText` |
| Transpilers.Transpiler.LuaOverload | src/golf/transpiler/transpiler.rs:123-148 | gives `OverloadText` |
| Transpilers.Transpiler.LuaArm | src/golf/transpiler/transpiler.rs:185-252 | gives `ArmText` |
| Transpilers.Transpiler.PushBinds | src/golf/transpiler/transpiler.rs:188-205 | the first parameter loop appends `Binds` |
| Transpilers.Transpiler.PushGuards | src/golf/transpiler/transpiler.rs:207-240 | the second parameter loop appends `GuardTexts` and ends with `flag` true iff there is no literal parameter |

## Left out

- I/O: the command-line driver in `src/main.rs` and its coloured diagnostics are not part of this model.
- The `mod.rs` files only wire modules together, and the three `error.rs` files only hold constructors and `Display`. Errors are modelled as one value, a message with an optional position (`Tokens.Error`).
- Floating point: numbers are kept as the text of their literal. The float matcher's `parse::<f64>()` and `to_string` are not followed, so `Matchers.FloatKeepsText` keeps `12.5` where Rust prints the `f64`'s shortest form (e.g. `1.50` would become `1.5`). Neither is the parser's `Number(f64)` nor the transpiler's `{}` printing of numbers.
- Unicode: `is_alphanumeric` is ASCII letters and digits only. `is_whitespace` is the Unicode White_Space list. Matchers.MatchConstant compares lengths in chars where `constant.len()` counts bytes; the two agree because every constant list holds ASCII text only.
- `Rc`/`RefCell` sharing: a child table holds its parent as a value, which is what the source's `sym.clone()` amounts to.
- `SymTab::dump` and its `Debug` impl: formatting only.
- `Matchers.MatchConstant`: the early `return None` on `size_hint` is not modelled, because it cannot be taken (`Take::size_hint` always has an upper bound of `constant.len()`).
- Parser loops that never end on malformed input: the parser methods take a `fuel` bound and give an "out of fuel" error when it runs out. The model says nothing about inputs on which the source loops forever.
- Parser methods: each is proved equal to a pure function of the token list, the start index and the fuel (`ExpressionAt`, `TermAt`, `ArgsAt`, ...), which reads the tokens as the method does; the lemmas about those functions carry the properties. The source's loops are written as helper methods of their own (`ParseParams`, `ParseArms`, `FoldRounds`, and `ParseParam` and `ParseArgument` for one round of a loop), and each `break` of `call` as the `return` that follows its loop.
- Parsers.Parser.ParseCall: the counter `acc` is kept, and `ArgsAt` reads it as "no argument read yet", which it is in every round that reaches the test.
- Travelers.Traveler.Get: the assertion message is not modelled; the requirement `0 < i < len` is a precondition.
- Transpilers.Transpiler.LuaStatement: an assignment target that is an identifier is printed through `LuaName` directly rather than by building a new identifier node and lowering it. `Transpilers.AssignedNameLowered` shows the two print the same.
- Transpilers.Transpiler.PushBinds: together with `PushGuards`, a helper method holding one loop of the source's Arm case, split out so that each loop is verified on its own.
- A `panic!`, `unwrap` on `None` and `unreachable!()` are error results, not process termination.
- The `Operand` overload entries of a function's metatable are modelled (`Transpilers.Transpiler.LuaOverload`), although the parser never builds an `Operand` parameter.
