# BSLTool core in Dafny

BSLTool reads source text in 1C:Enterprise's built-in language (BSL) and turns it into a
token stream and then into a syntax tree. This project models the core of that pipeline
and proves properties of the model:

- **Lexer** (`TokenStream::DoLexModule` and `PushToken`). It scans the text one symbol at a
  time. Along the way it tracks rows and columns, string literals with doubled quotes,
  `//` comments and one-symbol dividers. Each finished token is classified as a string
  constant, an annotation, a number or a comment. Any other token is a keyword, looked up
  case-insensitively in the bilingual (Russian and English) keyword table
  `g_TokenDictionary`, or else an identifier.
- **Token stream**. A cursor over the token vector, with `Reset`, `PeekNextToken`,
  `ReadToken`, `CheckToken`, `CurrentToken` and `HasToken`. It also has two extractors:
  one cuts out a nested block up to its end keyword, the other cuts out a statement up to
  its `;`.
- **Expression pass** (`ShuntAlgo`). A shunting-yard pass ordered by `Precedence`. It sends
  operands to the output and keeps operators and brackets on a stack. When a `(` follows
  an identifier, it writes a call hint into that `(`.
- **Syntax tree builder** (`BuildAbstractSyntaxTree` and the `SubprogramTreeNode`
  constructor). The builder collects annotations and turns each procedure or function
  block into a subprogram node. That node has a name, a parameter list with by-value and
  default-value markers, an export mark, and body statements built recursively.
- **`trim`**, from the utilities file.

How the model maps onto the source:

- Each module follows one source file.
- `TokenStream` is a Dafny `class` with the vector `data` and the cursor `position` as
  fields. Its methods update it in place, just as the source does.
- The loops of the source are `while` loops. Each loop is proved equal to a pure
  specification function, so its contract ties it to that function:
  - the lexer loop to `Lexer.Lex`;
  - the shunting-yard loops to `Shunting.Shunt`;
  - the builder loops to `SyntaxTree.Build`, `Subprogram`, `Params` and `Statements`;
  - `trim`'s loops to `Utils.Trimmed`.
- The lemmas are stated about those functions. They cover:
  - the well-formedness and source order of every token;
  - case-insensitive keyword lookup and the first-match rule;
  - block extraction, which stops at the first unnested end;
  - the stack discipline of the expression pass: operands preserved in order, barriers,
    and left associativity;
  - the annotation chaining of the builder;
  - the shape of a parsed subprogram;
  - `trim`'s cuts and its idempotence;
  - worked examples over concrete token kinds.
- The source reports errors by throwing:
  - `UnexcpectedEndOfTokenStream`;
  - `UnexcpectedToken`;
  - `std::exception("Mismatched parenthesis")`.

  Here those become the `Err` values of a `Result` (`outcomes.dfy`).

Three behaviours of the code worth knowing:

- A procedure with an empty body, `Процедура Тест() КонецПроцедуры`, aborts: the export
  check calls `CurrentToken` on an exhausted stream, which reports "unexpected end of
  token stream" (`SyntaxTree.EmptyProcedureAborts`).
- The function branch of the builder is keyed on `EndFunction` (`КонецФункции`), not on
  `BeginFunction`. So a function block's start keyword is skipped, and its name, an
  identifier, hands the whole stream to the expression pass.
  `SyntaxTree.FunctionDeclarationExample` proves the result.
- Annotations are never cleared. Every subprogram receives all annotations collected
  before it in the module.

## Model

| member | source | states |
|---|---|---|
| `Tokens.Upper` | BSLToken.cpp:362 | an upper-cased symbol is never a lower-case Latin or Cyrillic letter, and a symbol that is not a lower-case letter stays as it is |
| `Tokens.UpperString` | BSLToken.cpp:362 | upper-casing keeps the length and maps each symbol on its own |
| `Tokens.UpperStringIdempotent` | BSLToken.cpp:362 | upper-casing twice equals upper-casing once, and leaves no lower-case letter |
| `Tokens.TokenDictionary` | BSLToken.cpp:306-358 | the keyword table has its 50 entries, in source order |
| `Tokens.DictionaryEntryAt` | BSLToken.cpp:306-358 | entry i of the table, as written on line 308 + i; the table facts are proved about it (`TokenDictionary`, `DirectiveEntries`, `DictionaryHasNoLexicalKind`) |
| `Tokens.DictionaryHasNoLexicalKind` | BSLToken.cpp:306-358 | no keyword entry is an identifier, string, comment, number or annotation kind |
| `Tokens.LookupFindsFirstMatch` | BSLToken.cpp:364-372 | the scan yields Identifier exactly when no entry's Russian or English spelling equals the key; otherwise it yields the kind of the first matching entry |
| `Tokens.Lookup` | BSLToken.cpp:364-372 | the scan over the table from an index, comparing the Russian spelling before the English one; `LookupFindsFirstMatch` states what it yields |
| `Tokens.TokenTypeFromValue` | BSLToken.cpp:360-373 | the result is Identifier exactly when no entry matches the upper-cased value, and is never any other lexical kind |
| `Tokens.Classify` | BSLToken.cpp:286-299 | string literal iff the flag is set; annotation iff unquoted and starting with `&`; number iff it is otherwise a whole signed decimal; comment iff it is otherwise `//`-prefixed; in all other cases the keyword lookup |
| `Tokens.IsWholeNumber` | BSLToken.cpp:286-295 | the values `wcstol` reads to their end (`*p == 0`): an optional sign and at least one decimal digit, nothing else; `Classify` uses it for NumericConst |
| `Tokens.Emit` | BSLToken.cpp:266-304 | nothing for an empty value or one starting with a byte-order mark; otherwise exactly one token with the given value, length, position and literal flag, no call hint, and the classified kind |
| `Tokens.ProcedureEnglishLowerCase` | BSLToken.cpp:360-373 | `procedure` is BeginProcedure |
| `Tokens.ProcedureEnglishMixedCase` | BSLToken.cpp:360-373 | `Procedure` is BeginProcedure |
| `Tokens.ProcedureRussianUpperCase` | BSLToken.cpp:360-373 | `ПРОЦЕДУРА` is BeginProcedure |
| `Tokens.ProcedureRussianLowerCase` | BSLToken.cpp:360-373 | `процедура` is BeginProcedure |
| `Tokens.CaseInsensitive` | BSLToken.cpp:360-373 | two values with the same upper-case form resolve to the same kind, and so does the upper-case form itself |
| `Tokens.MixedCaseSpellingUnreachable` | BSLToken.cpp:306-373 | an entry whose Russian spelling has lower-case letters matches an upper-cased key only through its English spelling |
| `Tokens.ResolvedSpelling` | BSLToken.cpp:360-373 | a value that resolves to a keyword equals, once upper-cased, the English spelling of an entry of that kind, or an all-upper-case Russian spelling |
| `Tokens.DirectiveEntries` | BSLToken.cpp:338-348 | only the preprocessor entries 30 to 40 have spellings that start with `#` |
| `Tokens.RussianDirectiveIfIsIdentifier` | BSLToken.cpp:338-373 | `#Если`, in any letter case, is an identifier, since its table spelling is mixed-case |
| `Tokens.NoDirectiveSpellsRussianIf0` | BSLToken.cpp:338-340 | entries 30 to 32 do not spell `#ЕСЛИ` |
| `Tokens.NoDirectiveSpellsRussianIf1` | BSLToken.cpp:341-343 | entries 33 to 35 do not spell `#ЕСЛИ` |
| `Tokens.NoDirectiveSpellsRussianIf2` | BSLToken.cpp:344-346 | entries 36 to 38 do not spell `#ЕСЛИ` |
| `Tokens.NoDirectiveSpellsRussianIf3` | BSLToken.cpp:347-348 | entries 39 and 40 do not spell `#ЕСЛИ` |
| `Lexer.Step` | BSLToken.cpp:49-124 | one iteration of the scan advances the offset by at least one symbol and never past the end |
| `Lexer.NewLine` | BSLToken.cpp:57-62 | the line-break update; `NewLineStep` states its effect on a whole iteration |
| `Lexer.CommentStart` | BSLToken.cpp:64-68 | the comment opening; `CommentStartStep` states its effect |
| `Lexer.Dispatch` | BSLToken.cpp:70-119 | the symbol's branch; the branch lemmas (`CommentGoesOnStep`, `DividerStep`, `WordStartStep`, the quote steps) and `DispatchKeepsOrder` state what each case does |
| `Lexer.Finish` | BSLToken.cpp:127-128 | the flush after the loop; `UnterminatedLiteralFlushed` states it for an open literal |
| `Lexer.Run` | BSLToken.cpp:49-128 | the loop from a state, then the final flush; `RunKeepsWellFormed`, `RunKeepsOrder` and `RunAdvances` are proved about it |
| `Lexer.Lex` | BSLToken.cpp:11-129 | the tokens DoLexModule appends, none for an empty text; `LexWellFormed`, `LexInSourceOrder` and the examples state what they are |
| `Lexer.FlushKeepsWellFormed` | BSLToken.cpp:41-47 | flushing a pending value that is plain text, a comment or a literal keeps every token well formed |
| `Lexer.CommentOpenKeepsInv` | BSLToken.cpp:64-73 | opening a comment keeps the scan invariant |
| `Lexer.CommentGoesOnKeepsInv` | BSLToken.cpp:70-73 | a comment symbol keeps the scan invariant |
| `Lexer.CommentEndKeepsInv` | BSLToken.cpp:57-62 | the line break that ends a comment keeps the scan invariant |
| `Lexer.WhitespaceKeepsInv` | BSLToken.cpp:74-77 | whitespace outside literals keeps the scan invariant |
| `Lexer.DividerKeepsInv` | BSLToken.cpp:78-85 | a divider keeps the scan invariant |
| `Lexer.QuoteOpenKeepsInv` | BSLToken.cpp:101-107 | an opening quote keeps the scan invariant |
| `Lexer.WordKeepsInv` | BSLToken.cpp:109-119 | a word symbol keeps the scan invariant |
| `Lexer.DoubledQuoteKeepsInv` | BSLToken.cpp:90-94 | a doubled quote inside a literal keeps the scan invariant |
| `Lexer.QuoteCloseKeepsInv` | BSLToken.cpp:95-99 | a closing quote keeps the scan invariant |
| `Lexer.LiteralSymbolKeepsInv` | BSLToken.cpp:70-119 | any other symbol inside a literal keeps the scan invariant |
| `Lexer.StepKeepsInv` | BSLToken.cpp:49-124 | every iteration keeps the scan invariant |
| `Lexer.RunKeepsWellFormed` | BSLToken.cpp:49-128 | the loop and the final flush produce only well-formed tokens |
| `Lexer.LexWellFormed` | BSLToken.cpp:11-129 | every token is non-empty and has no byte-order mark; its length is its value's; it has no call hint yet and the kind PushToken gives; it starts inside the source; unless it is a literal, it is the exact source text, either one comment or whitespace-free text |
| `Lexer.PushKeepsOrder` | BSLToken.cpp:41-47 | a flush keeps the tokens in source order |
| `Lexer.DispatchKeepsOrder` | BSLToken.cpp:64-119 | the branch taken for a symbol keeps the tokens in source order |
| `Lexer.StepKeepsOrder` | BSLToken.cpp:49-124 | every iteration keeps the tokens in source order |
| `Lexer.RunKeepsOrder` | BSLToken.cpp:49-128 | the loop and the final flush give tokens in source order |
| `Lexer.LexInSourceOrder` | BSLToken.cpp:11-129 | tokens come out with non-decreasing offsets and rows |
| `Lexer.NewLineStep` | BSLToken.cpp:57-62 | a line break increments the row, ends any comment, and leaves the column at 2 after the iteration's increment |
| `Lexer.WordStartStep` | BSLToken.cpp:109-119 | the first symbol of a word records the current row, column and offset as the token's start |
| `Lexer.DividerStep` | BSLToken.cpp:78-85 | a divider flushes the pending token, then emits itself as a token of its own that reuses the previous start row and column |
| `Lexer.CommentStartStep` | BSLToken.cpp:64-73 | `//` outside a literal or comment flushes the pending token and starts a comment holding `/` at the current offset, keeping the previous start row and column |
| `Lexer.CommentGoesOnStep` | BSLToken.cpp:70-73 | inside a comment every symbol but a line break joins the comment, quotes and a second `//` included, and nothing is emitted |
| `Lexer.CommentEndStep` | BSLToken.cpp:57-77 | the line break after a comment ends comment mode and flushes the comment, without the break, as its own token |
| `Lexer.QuoteOpenStep` | BSLToken.cpp:101-107 | an opening quote enters literal mode, emits nothing and discards the pending value |
| `Lexer.DoubledQuoteStep` | BSLToken.cpp:90-94 | a doubled quote inside a literal adds one quote, skips two symbols and advances the column by one |
| `Lexer.QuoteCloseStep` | BSLToken.cpp:95-99 | a closing quote flushes the literal as a string token and leaves literal mode |
| `Lexer.EmptyLiteralSteps` | BSLToken.cpp:86-108 | `""` emits no token and returns to code |
| `Lexer.UnterminatedLiteralFlushed` | BSLToken.cpp:127-128 | a literal still open at the end of the text is flushed as a string constant |
| `Lexer.NewLineExample` | BSLToken.cpp:57-62 | `a\nb` gives `a` at row 1 column 1 and `b` at row 2 column 2 |
| `Lexer.CommentExample` | BSLToken.cpp:57-77 | `//a\nb` gives exactly the comment token `//a` at offset 0, length 3, with the unset start row and column 0, then `b` at offset 4, row 2, column 2 |
| `Lexer.CommentExampleStart` | BSLToken.cpp:64-73 | the first three symbols of `//a\nb` all go into the comment |
| `Lexer.StarExample` | BSLToken.cpp:78-85 | `*` is not a divider: `2*3` is one token, and not a number |
| `Lexer.DoubledQuoteExample` | BSLToken.cpp:86-108 | `"a""b"` is exactly one string token `a"b` at offset 1, length 3, row 1, column 2 |
| `Lexer.DoubledQuoteExampleStart` | BSLToken.cpp:86-108 | after `"a""` the scan is inside the literal with `a"` pending and the column at 4 |
| `Lexer.EmptyLiteralExample` | BSLToken.cpp:86-108 | `""` alone gives no token |
| `Lexer.UnterminatedLiteralExample` | BSLToken.cpp:127-128 | `"ab` with no closing quote gives the string token `ab` |
| `TokenStreams.ScanStops` | BSLToken.cpp:224-230 | the block scan stops at an end token seen at nesting level 0 |
| `TokenStreams.ScanContinues` | BSLToken.cpp:221-235 | at any other token the scan goes on at the nesting level of the tokens read so far |
| `TokenStreams.BlockEndFromLevel` | BSLToken.cpp:214-237 | from a level reached without closing, the scan finds the first closing end token, or none |
| `TokenStreams.NoneClosesExtend` | BSLToken.cpp:214-237 | a token that does not close extends the unclosed prefix |
| `TokenStreams.BlockEndIsFirstClosing` | BSLToken.cpp:207-240 | the block ends at the first end token that closes the nesting opened since the cursor; the scan fails exactly when no token closes |
| `TokenStreams.BlockEndSameKinds` | BSLToken.cpp:221-233 | when start and end kinds coincide, the scan never closes |
| `TokenStreams.Substream` | BSLToken.cpp:207-240 | the block is the tokens from the cursor to the terminating end token, which is consumed and not copied; running out is UnexpectedEndOfTokenStream |
| `TokenStreams.BlockEndBounds` | BSLToken.cpp:224-230 | a found block end lies at or after the cursor and has the end kind |
| `TokenStreams.StatementEnd` | BSLToken.cpp:249-261 | the index of the first `;` from the cursor, or the end |
| `TokenStreams.ExpressionSubstream` | BSLToken.cpp:242-264 | nothing exactly when the cursor is at the end; otherwise the tokens up to the next `;`, none of them a `;`, with the cursor just past that `;`, or at the end when there is none |
| `Lexer.StepInStages` | BSLToken.cpp:54-122 | an iteration is the line-break update, then the comment opening, then the symbol's branch, then the column and offset increments |
| `Lexer.RunAdvances` | BSLToken.cpp:49-124 | the result of the loop is that of the loop from the next state |
| `TokenStreams.TokenStream.constructor` | BSLToken.cpp:131-137 | a new stream holds exactly the lexed tokens of the text, with the cursor at 0 |
| `TokenStreams.TokenStream.Empty` | BSLToken.h:135-138 | an empty stream with the cursor at 0 |
| `TokenStreams.TokenStream.DoLexModule` | BSLToken.cpp:11-129 | the loop appends exactly the lexer's tokens for the text, and leaves the cursor alone |
| `TokenStreams.TokenStream.LexSymbol` | BSLToken.cpp:57-119 | one iteration's branches update the loop variables and the token vector as one scan step does |
| `TokenStreams.TokenStream.PushToken` | BSLToken.cpp:266-304 | appends exactly the token Emit gives, nothing else changes |
| `TokenStreams.TokenStream.Reset` | BSLToken.cpp:145-148 | the cursor goes back to 0, the tokens are unchanged |
| `TokenStreams.TokenStream.PeekNextToken` | BSLToken.cpp:150-160 | fails exactly when the cursor is on the last token; otherwise the token after the cursor, which does not move |
| `TokenStreams.TokenStream.ReadToken` | BSLToken.cpp:162-175 | at the end: an error when a token is expected, else none, and the cursor stays; otherwise the token at the cursor, which advances by one |
| `TokenStreams.TokenStream.CheckToken` | BSLToken.cpp:177-184 | at the end, UnexpectedEndOfTokenStream; otherwise it consumes one token and succeeds exactly when that token is of the expected kind, reporting expected and received kinds if not |
| `TokenStreams.TokenStream.CurrentToken` | BSLToken.cpp:186-196 | fails exactly at the end; otherwise the token at the cursor, which does not move |
| `TokenStreams.TokenStream.HasToken` | BSLToken.cpp:198-205 | true exactly when some token of the stream has the kind |
| `TokenStreams.TokenStream.ExtractSubstream` | BSLToken.cpp:207-240 | a fresh stream holding exactly the block's tokens, with the cursor after the terminator; or the end-of-stream error |
| `TokenStreams.TokenStream.ExtractExpressionSubstream` | BSLToken.cpp:242-264 | none at the end; otherwise a fresh stream with the statement's tokens, with the cursor past its `;` |
| `Shunting.PrecedenceTable` | BSLAbstractSyntaxTree.cpp:114-131 | `*` and `/` rank 2, `+` and `-` rank 1, `.` ranks 0, and every other kind, `=` and brackets included, is the barrier -1 |
| `Shunting.Precedence` | BSLAbstractSyntaxTree.cpp:114-131 | the precedence switch; `PrecedenceTable` states its values |
| `Shunting.PopOperators` | BSLAbstractSyntaxTree.cpp:245-258 | the popping loop before an operator is pushed; `PopOperatorsStops` states what it keeps and moves |
| `Shunting.CloseGroup` | BSLAbstractSyntaxTree.cpp:262-303 | the loops at `)` and `]`; `CloseGroupCutsAtOpener` and `CloseGroupWithoutOpener` state both outcomes |
| `Shunting.Drain` | BSLAbstractSyntaxTree.cpp:308-315 | the loop after the last token; `DrainMovesStack` states both outcomes |
| `Shunting.ShuntToken` | BSLAbstractSyntaxTree.cpp:220-304 | the switch on one token; `ShuntTokenKeepsOrder`, `ShuntTokenKeepsKinds`, `OpeningBracketHint` and `IgnoredKinds` state its cases |
| `Shunting.ShuntFrom` | BSLAbstractSyntaxTree.cpp:213-315 | the pass from a token index and a state; `ShuntFromKeeps`, `ShuntFromOnlySetsHints` and `ShuntStep` are proved about it |
| `Shunting.Shunt` | BSLAbstractSyntaxTree.cpp:206-322 | the pass from the cursor with an empty stack and output; `ShuntOutputKindsAndOperands`, `LeftAssociating` and the examples state its results |
| `Shunting.Reverse` | BSLAbstractSyntaxTree.cpp:252-253 | popping a whole stack keeps its length |
| `Shunting.ReverseElements` | BSLAbstractSyntaxTree.cpp:252-253 | popping a whole stack outputs its entries top first |
| `Shunting.DrainMovesStack` | BSLAbstractSyntaxTree.cpp:308-315 | after the last token a `(` left on the stack is a mismatch; otherwise the entire stack moves to the output, top first |
| `Shunting.TopmostOf` | BSLAbstractSyntaxTree.cpp:264-283 | the topmost entry of a kind, or none when the stack has none |
| `Shunting.CloseGroupCutsAtOpener` | BSLAbstractSyntaxTree.cpp:262-303 | a closing bracket moves every entry above the topmost matching opener to the output, top first; it then drops the opener, outputting it for `]` always and for `)` only when it carries a call hint |
| `Shunting.CloseGroupWithoutOpener` | BSLAbstractSyntaxTree.cpp:264-267 | with no matching opener on the stack, a closing bracket is a mismatch |
| `Shunting.Kept` | BSLAbstractSyntaxTree.cpp:245-258 | how much of the stack an operator leaves: everything above it is popped, and the entry below it does not pop |
| `Shunting.PopOperatorsStops` | BSLAbstractSyntaxTree.cpp:245-258 | before an operator is pushed, the run of entries on top that bind at least as tightly and are not barriers moves to the output, top first; the rest stay |
| `Shunting.ShuntTokenKeepsOrder` | BSLAbstractSyntaxTree.cpp:220-304 | every token keeps the stack strictly increasing in precedence between barriers |
| `Shunting.OperatorKeepsOrder` | BSLAbstractSyntaxTree.cpp:238-261 | an operator pushed after the pops sits only on a barrier or a looser operator |
| `Shunting.CloseGroupKeepsOrder` | BSLAbstractSyntaxTree.cpp:262-303 | closing a group keeps the stack ordered |
| `Shunting.PushBarrierKeepsOrder` | BSLAbstractSyntaxTree.cpp:228-237 | pushing an opening bracket keeps the stack ordered |
| `Shunting.OperandsAppend` | BSLAbstractSyntaxTree.cpp:222-227 | the operands of a concatenation are those of each part, in order |
| `Shunting.NoOperandsMoved` | BSLAbstractSyntaxTree.cpp:245-303 | stack entries are never operands |
| `Shunting.ShuntTokenKeepsKinds` | BSLAbstractSyntaxTree.cpp:220-304 | each token keeps only stackable kinds on the stack and only operand or stackable kinds in the output, and adds itself to the output's operands exactly when it is one |
| `Shunting.OperatorKeepsKinds` | BSLAbstractSyntaxTree.cpp:238-261 | an operator step keeps the kinds and adds no operand |
| `Shunting.CloseGroupKeepsKinds` | BSLAbstractSyntaxTree.cpp:262-303 | a closing bracket keeps the kinds and adds no operand |
| `Shunting.CutKeepsKinds` | BSLAbstractSyntaxTree.cpp:245-303 | cutting the stack to the output keeps the kinds and adds no operand |
| `Shunting.MovedKeepsKinds` | BSLAbstractSyntaxTree.cpp:308-315 | moving the stack to the output adds no operand |
| `Shunting.DrainKeepsKinds` | BSLAbstractSyntaxTree.cpp:308-315 | the final drain keeps the output kinds and adds no operand |
| `Shunting.ShuntFromKeeps` | BSLAbstractSyntaxTree.cpp:213-306 | on success, the output has only operand, operator and opening bracket kinds, and its operands are those input so far followed by those of the remaining tokens |
| `Shunting.OperandsFrom` | BSLAbstractSyntaxTree.cpp:228-231 | writing a call hint into a token does not change the operands of the tokens after it |
| `Shunting.ShuntOutputKindsAndOperands` | BSLAbstractSyntaxTree.cpp:206-322 | the output holds no closing bracket, and its operands are exactly the input's operands, each once, in input order |
| `Shunting.NoClosingBrackets` | BSLAbstractSyntaxTree.cpp:262-303 | output kinds exclude `)` and `]` |
| `Shunting.ShuntFromOnlySetsHints` | BSLAbstractSyntaxTree.cpp:228-231 | the pass changes the stream's tokens only by setting the call hint of opening brackets |
| `Shunting.OpeningBracketHint` | BSLAbstractSyntaxTree.cpp:228-234 | `(` with an empty output reads a missing last element (an error); otherwise it is pushed, carrying a call hint exactly when it had one or the last output is an identifier |
| `Shunting.IgnoredKinds` | BSLAbstractSyntaxTree.cpp:220-304 | a token of a kind without a case, such as strings, commas, `;` and keywords, changes nothing |
| `Shunting.PlusTimesExample` | BSLAbstractSyntaxTree.cpp:206-322 | `1 + 2 * 3` gives `1 2 3 * +` |
| `Shunting.RightNestingTail` | BSLAbstractSyntaxTree.cpp:245-261 | a tighter second operator waits on top of the first, and the drain outputs both, tighter first |
| `Shunting.TimesPlusExample` | BSLAbstractSyntaxTree.cpp:206-322 | `1 * 2 + 3` gives `1 2 * 3 +` |
| `Shunting.MinusMinusExample` | BSLAbstractSyntaxTree.cpp:206-322 | `1 - 2 - 3` gives `1 2 - 3 -` |
| `Shunting.LeftAssociating` | BSLAbstractSyntaxTree.cpp:245-261 | `a op1 b op2 c`, where op1 binds at least as tightly as op2, gives `a b op1 c op2` |
| `Shunting.InfixHead` | BSLAbstractSyntaxTree.cpp:222-261 | reading `a op b` leaves `op` alone on the stack and `a b` in the output |
| `Shunting.LeftAssociatingTail` | BSLAbstractSyntaxTree.cpp:245-261 | an operator that binds no tighter pops the first one before being pushed |
| `Shunting.ShuntStep` | BSLAbstractSyntaxTree.cpp:213-306 | a step that leaves its token unchanged hands on to the next token |
| `Shunting.UnopenedClosingBracket` | BSLAbstractSyntaxTree.cpp:262-303 | `)` or `]` with no matching opener is a mismatch |
| `Shunting.ShuntAlgo` | BSLAbstractSyntaxTree.cpp:206-322 | the stack-and-vector loop returns the pass's output and error, writes the pass's hints into the stream and leaves the cursor at the end |
| `Shunting.PopLoop` | BSLAbstractSyntaxTree.cpp:245-258 | the popping loop computes PopOperators |
| `Shunting.CloseLoop` | BSLAbstractSyntaxTree.cpp:262-303 | the closing-bracket loops compute CloseGroup with their opener and emission rule |
| `Shunting.DrainLoop` | BSLAbstractSyntaxTree.cpp:308-315 | the final loop computes Drain |
| `SyntaxTree.Build` | BSLAbstractSyntaxTree.cpp:135-204 | a successful build yields a module node |
| `SyntaxTree.BuildBlock` | BSLAbstractSyntaxTree.cpp:157-172 | a successful block case yields a module node |
| `SyntaxTree.Subprogram` | BSLAbstractSyntaxTree.cpp:324-395 | the SubprogramTreeNode constructor over tokens; `SubprogramShape` states the node it yields |
| `SyntaxTree.SubprogramRest` | BSLAbstractSyntaxTree.cpp:336-393 | the constructor after the `(`; `SubprogramRestShape` states the node it yields |
| `SyntaxTree.Statements` | BSLAbstractSyntaxTree.cpp:384-393 | the body loop; `StatementsAreModules`, `StatementsFirst` and `ExportOnlyBody` state what it yields |
| `SyntaxTree.Params` | BSLAbstractSyntaxTree.cpp:336-377 | the parameter loop ends just after a `)`, extends the descriptors read so far, and can fail only by running out of tokens |
| `SyntaxTree.ParamsStep` | BSLAbstractSyntaxTree.cpp:336-377 | a token other than `)` starts a descriptor pass; the loop goes on after it with the descriptor recorded, or fails with it |
| `SyntaxTree.Record` | BSLAbstractSyntaxTree.cpp:361-375 | recording keeps the descriptors so far |
| `SyntaxTree.Descriptor` | BSLAbstractSyntaxTree.cpp:344-375 | one pass consumes at least two tokens and fails only at the end of the stream; a recorded descriptor has the name token's text, is by value exactly after Val, and has a default, the text of the token after `=`, exactly when the follower is `=`; nothing is recorded exactly when the follower exists and is none of `)`, `,` and `=`, since the switch has no default case |
| `SyntaxTree.BuildKeepsChain` | BSLAbstractSyntaxTree.cpp:141-201 | the builder appends only subprogram children, each with every annotation collected before it, and keeps the earlier children |
| `SyntaxTree.PrefixesFrom` | BSLAbstractSyntaxTree.cpp:150-153 | after an annotation, later children still extend the earlier annotations |
| `SyntaxTree.BuildBlockKeepsChain` | BSLAbstractSyntaxTree.cpp:157-172 | a block case keeps the children chained |
| `SyntaxTree.GrownPrefix` | BSLAbstractSyntaxTree.cpp:161 | a child added with the current annotations keeps the annotation chain |
| `SyntaxTree.ChainAppend` | BSLAbstractSyntaxTree.cpp:161 | appending a subprogram with the current annotations keeps the children chained |
| `SyntaxTree.ModuleChildren` | BSLAbstractSyntaxTree.cpp:135-204 | a module's children are subprograms, and each one's annotations extend those of the one before |
| `SyntaxTree.SubprogramShape` | BSLAbstractSyntaxTree.cpp:324-395 | a parsed subprogram has the given kind and annotations and its first token's text as name; that token is followed by `(`; its arguments are the parameter list's; it is exported exactly when the token after the list is Export; its body statements are modules; a name with no token after it fails with UnexpectedEndOfTokenStream, and one followed by anything but `(` fails with UnexpectedToken(OpeningBracket, received) |
| `SyntaxTree.SubprogramRestShape` | BSLAbstractSyntaxTree.cpp:336-393 | after the `(`: the parameter list, the export mark and the body give a subprogram of that signature |
| `SyntaxTree.StatementsAreModules` | BSLAbstractSyntaxTree.cpp:384-393 | the body loop keeps the statements so far and adds only modules, at least one when any token remains |
| `SyntaxTree.StatementsFirst` | BSLAbstractSyntaxTree.cpp:384-393 | a body with a token left has at least one statement |
| `SyntaxTree.BuildAnnotationStep` | BSLAbstractSyntaxTree.cpp:150-153 | an annotation token is collected and the builder goes on |
| `SyntaxTree.BuildSkipStep` | BSLAbstractSyntaxTree.cpp:148-199 | a comment or any kind without a case is skipped |
| `SyntaxTree.BuildBlockStep` | BSLAbstractSyntaxTree.cpp:157-172 | a procedure start or function end extracts its block, parses it as a subprogram, and goes on after the block with the new child; either failure aborts |
| `SyntaxTree.BuildShuntStep` | BSLAbstractSyntaxTree.cpp:173-198 | an identifier resets the cursor and runs the expression pass over the whole stream, whose error aborts; on success the builder is at the end of the rewritten tokens |
| `SyntaxTree.EmptyProcedureAborts` | BSLAbstractSyntaxTree.cpp:379-382 | a procedure with no token after its parameter list aborts with UnexpectedEndOfTokenStream |
| `SyntaxTree.ExportedProcedureExample` | BSLAbstractSyntaxTree.cpp:135-204 | an annotated, exported procedure with an empty parameter list gives one subprogram with that annotation, exported, and one empty statement |
| `SyntaxTree.FunctionDeclarationExample` | BSLAbstractSyntaxTree.cpp:165-178 | a function block adds no child: its name hands the stream to the expression pass, which marks the `(` as a call |
| `SyntaxTree.FunctionDeclarationShunt` | BSLAbstractSyntaxTree.cpp:206-322 | the expression pass over `Функция F() КонецФункции` outputs `F (` and marks the `(` |
| `SyntaxTree.FunctionDeclarationTail` | BSLAbstractSyntaxTree.cpp:262-304 | `)` after a hinted `(` outputs it, and the end keyword is ignored |
| `SyntaxTree.ExportOnlyBody` | BSLAbstractSyntaxTree.cpp:384-393 | a body of `Export ;` is one empty statement |
| `SyntaxTree.BlockEndPlain` | BSLToken.cpp:214-237 | with no start or end token before it, the first end token closes the block |
| `SyntaxTree.ParamsExample` | BSLAbstractSyntaxTree.cpp:336-377 | `a, Val b, c = 1)` gives a, then b by value, then c with default `1`, and the cursor ends after the `)` |
| `SyntaxTree.DroppedFollower` | BSLAbstractSyntaxTree.cpp:359-377 | in `a b)` the follower of `a` is neither `)`, `,` nor `=`, so no descriptor is recorded, and the `)` after `b` ends the list with no arguments |
| `SyntaxTree.LoneParameterFails` | BSLAbstractSyntaxTree.cpp:359-377 | in `a)` the `)` is the name's follower, so the loop reads on and runs out of tokens |
| `SyntaxTree.BuildAbstractSyntaxTree` | BSLAbstractSyntaxTree.cpp:135-204 | the builder's loop returns exactly the specified module or error, with the stream's tokens rewritten by the expression pass and the cursor at the end |
| `SyntaxTree.TokenCase` | BSLAbstractSyntaxTree.cpp:148-199 | the switch on one token continues the specified build from the new cursor, or returns its error |
| `SyntaxTree.ReadSubprogram` | BSLAbstractSyntaxTree.cpp:157-172 | a block case extracts the block and parses it; on success the cursor is after the block |
| `SyntaxTree.SubprogramTreeNode` | BSLAbstractSyntaxTree.cpp:324-395 | the constructor yields exactly the specified subprogram or error, and leaves the tokens unchanged |
| `SyntaxTree.ReadSubprogramRest` | BSLAbstractSyntaxTree.cpp:336-393 | the part after `(` yields the specified rest of the subprogram |
| `SyntaxTree.ReadParameters` | BSLAbstractSyntaxTree.cpp:336-377 | the parameter loop returns the specified descriptors and leaves the cursor after the list's `)`, or fails as specified |
| `SyntaxTree.ReadDescriptor` | BSLAbstractSyntaxTree.cpp:344-375 | one pass returns the specified descriptor with the specified new cursor, or its error |
| `SyntaxTree.ReadStatements` | BSLAbstractSyntaxTree.cpp:384-393 | the body loop returns the specified statements |
| `Utils.Front` | Utils.cpp:6-9 | the first non-whitespace index: everything before it is whitespace and it is not |
| `Utils.Back` | Utils.cpp:11-14 | the length without trailing whitespace: everything after it is whitespace and the symbol before it is not |
| `Utils.IsSpace` | Utils.cpp:7 | the `iswspace` test, with the "C" locale's set: tab to carriage return, and space |
| `Utils.Trimmed` | Utils.cpp:4-17 | `trim`'s result: empty when there is no non-whitespace symbol, else the range from the first to the last one; `TrimmedCuts`, `TrimIdempotent` and the other lemmas state what it is |
| `Utils.FrontBeforeBack` | Utils.cpp:11-14 | when some symbol is not whitespace, the backward scan stops after the forward one |
| `Utils.Trim` | Utils.cpp:4-17 | the two loops compute the trimmed string |
| `Utils.UniqueFront` | Utils.cpp:6-9 | the forward loop's stopping index is the first non-whitespace index |
| `Utils.UniqueBack` | Utils.cpp:11-14 | the backward loop's stopping point is the length without trailing whitespace |
| `Utils.TrimmedCuts` | Utils.cpp:4-17 | the result is a contiguous part of the input; everything cut from either end is whitespace; a non-empty result starts and ends with a non-whitespace symbol |
| `Utils.AllSpaceTrimsToEmpty` | Utils.cpp:6-16 | an all-whitespace string trims to the empty string |
| `Utils.ClosedStringUnchanged` | Utils.cpp:6-16 | a string whose first and last symbols are not whitespace is returned unchanged |
| `Utils.TrimIdempotent` | Utils.cpp:4-17 | trimming twice is trimming once |

## Left out

- `BSLTool.cpp` (reading files and printing) is not part of this model. Source text enters as a parameter.
- Offsets, columns and lengths count Unicode code points here (a Dafny `string` is a sequence of scalar values), while the program counts 16-bit UTF-16 units: it decodes its file into `wchar_t` on Windows (BSLTool.cpp:26-30). For text with a symbol outside the Basic Multilingual Plane, such as an emoji in a comment or a string, that token's `sourceLength`, the column of later tokens on its line and the `sourceOffset` of every later token differ from the program's.
- The `wprintf` loop that prints ShuntAlgo's output (BSLAbstractSyntaxTree.cpp:317-320) is not modelled. The output is returned instead.
- The reduce passes `ReduceNodesByParsingSubscriptExpression` and `ReduceNodesByParsingMemberExpressions` (BSLAbstractSyntaxTree.cpp:10-99) are left out. So is `NumericConstantTreeNode`, whose `double` is floating point. The builder never calls any of them; its call site is commented out.
- Destructors, `new` and `delete` are left out, as is the `UnexcpectedToken` exception class. Nodes are values: `AddNode` appends to a sequence, and ownership is not modelled.
- ShuntAlgo's stack and output hold pointers into the stream; the model holds copies. A token's hint is written before any copy of it is taken, so the values agree, but the aliasing itself is not modelled.
- Each loop body is a helper method (`LexSymbol`, `TokenCase`, `ReadDescriptor` and others). A helper returns what the body assigns to the loop's variables.
- Tokens.Upper: `towupper` is modelled for the Latin and Cyrillic letters only (U+0430 to U+045F). Every other symbol is left unchanged, and locale behaviour is not modelled.
- Tokens.Classify: `wcstol` with `*p == 0` is modelled as an optional sign followed by decimal digits covering the whole value; overflow does not change the classification. The leading-whitespace skip of `wcstol` is not modelled. A value that starts with a non-ASCII space that `iswspace` accepts in the program's locale (such as U+3000) and goes on with digits is numeric in the source and not in the model, since the lexer splits only on codes below 33.
- Utils.IsSpace: `iswspace` is modelled with the "C" locale's set (tab to carriage return, and space), while `main` selects the user's locale with `setlocale(LC_ALL, "")` (BSLTool.cpp:40), where more symbols may count as whitespace. No live code depends on it: the only call of `trim` (BSLToken.cpp:274-275) is commented out.
- Utils.Trim: requires a non-empty string, because on the empty string the source decrements `end` before `begin()`, which is undefined.
- TokenStreams.TokenStream.PeekNextToken: requires the cursor to be before the end. With the cursor at the end, the source indexes past the vector, which is undefined.
- Shunting.ShuntAlgo: a `(` with an empty output reads `output.back()`, which is undefined in the source. It is modelled as the error EmptyOutputBack, which aborts like the real errors.
- SyntaxTree.SubprogramTreeNode: `m_Export` is left uninitialised by the source when the Export mark is absent. The model gives it `false`. After an error the cursor position is not stated, since every error aborts the whole parse.
- SyntaxTree.BuildAbstractSyntaxTree: after an error the stream's state is not stated, since every error aborts the whole parse.
- Tokens.RussianDirectiveIfIsIdentifier: proves only that the mixed-case Russian spelling `#Если` cannot match. The reverse fact, that English `#if` resolves to DirectiveIf, is not proved.
