# gfalblc language core in Dafny

This project models the language pipeline of gfalblc, a small BASIC-like interpreter written in C. The pipeline has four stages:

- **Lexer** (`lexer.c`, module `Lexing`). A character cursor moves through the source one character at a time. It skips white space and `'` comments. It scans integer literals, identifiers, the three keywords DEF, PRINT and IF, string literals and one-character operators.
  - The pure function `NextTokenAt` says what one call of `lexer_next_token` returns.
  - The class `Lexer` is the cursor. Each of its loops is proved against that function.
- **AST construction** (`ast.c`, module `Ast`). A node is created with a fixed number of child slots and a counter. `add_child` fills the slot just below the counter and then decrements it, so the typed constructors end with their children in reverse order.
  - The class `AstNode` keeps the slots in an array, updated in place.
  - The slot rule is stated on sequences (`AddOne`, `AddAll`), and each constructor's final slots are proved.
- **Parser** (`parser.c`, module `Parsing`). There is one current token and a token source. `expect_token` either matches and advances, or stops the parse with a syntax error.
  - The recognisers of GOTO, GOSUB, RETURN, ON ERROR GOTO, READ, RESTORE, DIM, POKE and PEEK are each proved to accept exactly a fixed shape of tokens and phrases, written with `ParseItems`.
  - SELECT CASE has no fixed shape. Its head is followed by any number of arms, read by a loop up to ENDSELECT. That loop is proved against `CaseArms`, and the whole statement against `SelectCaseStatement`.
  - DATA has no fixed shape either. After the keyword it skips tokens up to, not including, the next NEWLINE. It is proved against `DataStatement` and `DataEnd`.
  - The token source is a sequence of tokens plus an index.
  - `parse_expression` and `parse_block` are declared in parser.c but never defined, so they are parameters of the parser. Each one says, for every token index, how many tokens it consumes, or that it fails.
- **Interpreter** (`interpreter.c`, modules `Execution` and `Interpreting`). `Evaluate` is the pure recursive evaluator of literal, identifier and operator nodes. The statement handlers, written as functions on a `State`, give the meaning of each statement.
  - The class `Interpreter` holds the 1000 `int` variables in an array updated in place, plus the `running` flag, the GOSUB return stack with its capacity, the data pointer, and the output lines.
  - Each handler method is proved to end in the state the matching function computes. Where that function reports an error, the method reports the same error.

Where interpreter.c calls `exit(1)` or has undefined behaviour, the model returns a `RuntimeError`. The undefined cases are:

- signed overflow;
- division by zero;
- a missing child or a NULL text;
- a variable index outside the 1000 slots.

A WHILE, FOR or REPEAT loop need not stop, so the statement functions and the methods take a `fuel` bound: one execution of a loop may run its body at most `fuel` times. The loop functions `Execution.While`, `Execution.ForLoop` and `Execution.RepeatUntil` count the runs left in `left`. A loop that wants more ends with `OutOfFuel`.

Two shared modules support the rest. `CLib` has the `<ctype.h>` classes, `atoi`, the `%d` conversion and the `int` range. `Wrappers` has `Option`, `Result` and `Outcome`.

gfalblc's code covers less than the BASIC it is named after, and the model follows the code:

- The keyword table has only DEF, PRINT and IF (lexer.c:229-231). Every other BASIC keyword, such as WHILE or FOR, is lexed as an identifier.
- `lookahead` does not restore the token source (see Findings).
- FOR always loops while `i <= end`, whatever the sign of the step (interpreter.c:182). So `FOR I = 3 TO 1 STEP -1` runs its body zero times; `Execution.ForSkippedWhenStartAboveEnd` states this.
- The four statements GOTO, ON ERROR GOTO, DATA and READ do nothing.
- A variable is the slot that `atoi` reads from its name (interpreter.c:150). A name such as `X`, which starts with a letter, reads as 0, so all such variables share slot 0. `Execution.LetterNamesShareSlotZero` states this for assignment, and `Execution.EvaluateLetterName` for reading.

## Model

| member | source | states |
|---|---|---|
| CLib.Atoi | interpreter.c:150 | `atoi`, which reads leading white space, an optional sign, then the longest digit run: empty text reads as 0 (the digit and letter cases are the two lemmas below) |
| CLib.IntToDecimal | interpreter.c:138 | the `"%d"` text: a `-` exactly when the number is negative, then a non-empty run of digits with no leading zero |
| CLib.AtoiOfLetterName | interpreter.c:150 | text that starts with a letter reads as 0 |
| CLib.AtoiOfDigits | interpreter.c:150 | text made only of digits reads as the number they write |
| CLib.AtoiOfIntToDecimal | interpreter.c:138 | `atoi` reads back exactly the number that `"%d"` wrote, negative numbers included |
| Lexing.Lexer.constructor | lexer.c:140-146 | the cursor starts at position 0, and `current_char` is the first character or `'\0'` for empty text |
| Lexing.Lexer.Advance | lexer.c:149-156 | the position grows by exactly 1; `current_char` becomes the character there, or `'\0'` at or past the end |
| Lexing.CreateToken | lexer.c:159-164 | the token has the given kind and a copy of the given text, or no text |
| Lexing.Substring | lexer.c:250-255 | the copy has `len` characters, and its k-th character is the source's character at `begin + k` |
| Lexing.ScanWhile | lexer.c:197-201 | a scan loop stops at the end of the longest run of matching characters: all of them match and the next one does not |
| Lexing.ScanWhileUnique | lexer.c:197-201 | that end is the only position with this property |
| Lexing.KeywordKind | lexer.c:228-234 | the kind is DEF, PRINT or IF exactly for those three texts, and IDENTIFIER for every other text |
| Lexing.OperatorKind | lexer.c:179-187 | exactly the characters `+ - * / = ( ) ,` have an operator kind, one each |
| Lexing.NextTokenAt | lexer.c:167-194 | a non-EOF token moves the position strictly forward and carries text; EOF has no text and comes only at the end; an error names a character of the input |
| Lexing.Tokenize | lexer.c:167-194 | calling the lexer until EOF ends, with exactly one EOF, at the end |
| Lexing.Lexer.NextToken | lexer.c:167-194 | returns the token `NextTokenAt` gives for the old position and moves the cursor to its end, or reports the same unexpected character |
| Lexing.Lexer.ScanToken | lexer.c:172-190 | at a character that is neither blank nor a comment start, returns the number, word, string or operator token `NextTokenAt` gives and moves the cursor to its end, or reports that character as unexpected |
| Lexing.Lexer.SkipWhitespace | lexer.c:197-201 | the cursor ends after the longest run of white space |
| Lexing.Lexer.SkipComment | lexer.c:204-208 | the cursor ends at the next newline or the end of input |
| Lexing.Lexer.Number | lexer.c:211-218 | the token is an integer literal whose text is the maximal digit run, and the cursor ends after that run |
| Lexing.Lexer.IdentifierOrKeyword | lexer.c:221-235 | the token's text is the maximal run of letters, digits and `_`, and its kind is the keyword table's |
| Lexing.Lexer.StringLiteralToken | lexer.c:238-247 | the token's text is everything between the quote and the next quote (or the end); the cursor ends past the closing quote |
| Lexing.EofIsSticky | lexer.c:193 | once EOF has been returned, every later call returns EOF again without moving |
| Lexing.WhitespaceIsSilent | lexer.c:168-172 | any white space before a position produces no token: the next token is the same |
| Lexing.CommentIsSilent | lexer.c:189 | a comment, up to but not including the newline, produces no token |
| Lexing.NumberIsMaximalDigitRun | lexer.c:173-174 | a digit starts an integer literal whose text is the digit run, and the character after the run is not a digit |
| Lexing.WordIsMaximalRun | lexer.c:176-177 | a letter starts a word token whose text is the maximal word run, with the keyword table's kind |
| Lexing.WordTokensStartWithLetter | lexer.c:176 | every identifier or keyword token begins with a letter |
| Lexing.UnderscoreIsUnexpected | lexer.c:190 | a leading `_` is an unexpected-character error |
| Lexing.StringLiteralBody | lexer.c:188 | a string token's text lies strictly between the quotes, contains no quote, and nothing in it is unescaped |
| Lexing.OperatorToken | lexer.c:180-187 | each operator character is a one-character token of its own kind, and the cursor moves by one |
| Lexing.OtherCharacterIsError | lexer.c:190 | any other character that starts no token is an error naming it |
| Ast.AddOne | ast.c:53-58 | one add keeps the number of slots and never raises the counter |
| Ast.AddAllBackToFront | ast.c:53-58 | the k-th add lands in slot `count-1-k`; the counter drops by one per add; no other slot changes |
| Ast.AddAllWhenFull | ast.c:54 | with the counter at 0, adds change nothing |
| Ast.FilledSlot | ast.c:53-58 | on a node given as many adds as slots, slot `k` holds the child added `k`-th from last |
| Ast.FilledNodeIsReversed | ast.c:53-58 | a node given as many adds as slots ends with its children reversed and the counter at 0 |
| Ast.AddAllFromPrefix | ast.c:53-58 | adding `xs` and then `ys` is the same as adding `xs + ys` |
| Ast.Reverse | ast.c:53-58 | the reversed sequence has the same length (the order of a filled node) |
| Ast.ReverseAt | ast.c:53-58 | element k of the reverse is element `n-1-k` of the input |
| Ast.AddAll | ast.c:53-58 | a run of adds keeps the number of slots and never raises the counter |
| Ast.RestoreLabel | ast.c:157-161 | no text exactly for line 0; otherwise a text that `atoi` reads back as the line number |
| Ast.AstNode.constructor | ast.c:43-50 | the node has the given kind and text, `n` empty slots, and counter `n` |
| Ast.AstNode.AddChild | ast.c:53-58 | the child goes into the slot below the counter and the counter drops by one; at 0 nothing changes |
| Ast.CreateProgramNode | ast.c:62-68 | the statements are copied in order, and the counter keeps their number |
| Ast.CreatePrintNode | ast.c:70-74 | one slot, holding the expression |
| Ast.CreateAssignmentNode | ast.c:76-81 | the expression ends in slot 0 and the variable in slot 1 |
| Ast.CreateIfNode | ast.c:83-90 | 3 slots with an ELSE block, 2 without; the children end in reverse order |
| Ast.CreateWhileNode | ast.c:92-97 | the block ends in slot 0 and the condition in slot 1 |
| Ast.CreateForNode | ast.c:99-106 | exactly 4 slots: block, step, condition, init |
| Ast.CreateRepeatUntilNode | ast.c:108-113 | the condition ends in slot 0 and the block in slot 1 |
| Ast.CreateSelectCaseNode | ast.c:115-122 | `case_count+1` slots holding the expression and the cases, reversed |
| Ast.CreateCaseNode | ast.c:124-129 | the block ends in slot 0 and the value in slot 1 |
| Ast.CreateGosubNode | ast.c:131-133 | no children; the label is the node's text |
| Ast.CreateReturnNode | ast.c:135-137 | no children and no text |
| Ast.CreateOnErrorGotoNode | ast.c:139-141 | no children; the label is the node's text |
| Ast.CreateDataNode | ast.c:143-149 | one slot per value, with the values reversed |
| Ast.CreateReadNode | ast.c:151-155 | one slot, holding the variable |
| Ast.CreateRestoreNode | ast.c:157-161 | no children; the decimal text of a non-zero line number, and no text for 0 |
| Ast.CreateDimNode | ast.c:163-170 | `dimension_count+1` slots holding the variable and the dimensions, reversed |
| Ast.CreateDefFnNode | ast.c:172-177 | the name is the text; the body ends in slot 0 and the parameters in slot 1 |
| Ast.CreateDefProcNode | ast.c:179-184 | the name is the text; the body ends in slot 0 and the parameters in slot 1 |
| Ast.CreateFunctionCallNode | ast.c:186-192 | the name is the text; one slot per argument, with the arguments reversed |
| Ast.CreatePokeNode | ast.c:194-199 | the value ends in slot 0 and the address in slot 1 |
| Ast.CreatePeekNode | ast.c:201-205 | one slot, holding the address |
| Ast.CreateAllocateNode | ast.c:207-212 | the size ends in slot 0 and the variable in slot 1 |
| Ast.CreateFreeNode | ast.c:214-218 | one slot, holding the variable |
| Ast.CreateEndNode | ast.c:220-222 | no children and no text |
| Ast.CreateStopNode | ast.c:224-226 | no children and no text |
| Parsing.ParseItems | parser.c:133-139 | matching a statement shape never moves the token index backwards |
| Parsing.FirstMismatch | parser.c:133-139 | the first item of a token-only shape that the tokens do not match; every item before it matches |
| Parsing.TokenShape | parser.c:133-139 | a token-only shape succeeds exactly when the kinds match, and then consumes one token per item; otherwise the error names the first mismatch's expected and actual kinds |
| Parsing.Parser.constructor | parser.c:262 | the current token is the first one the source delivers |
| Parsing.Parser.AdvanceToken | parser.c:128-130 | the source's next token becomes current, and the source moves by one |
| Parsing.Parser.ExpectToken | parser.c:133-139 | on a matching kind, advance exactly one token; otherwise an error naming both kinds, and nothing is consumed |
| Parsing.Parser.SubParse | parser.c:227 | a call of `parse_expression` or `parse_block` consumes what the sub-parser gives for the current index, or fails |
| Parsing.Parser.ParseGotoStatement | parser.c:142-147 | accepts exactly `GOTO identifier`, consumes two tokens, and returns the identifier's text |
| Parsing.Parser.ParseGosubStatement | parser.c:150-155 | accepts exactly `GOSUB identifier`, consumes two tokens, and returns the identifier's text |
| Parsing.Parser.ParseReturnStatement | parser.c:158-161 | accepts exactly RETURN and consumes one token |
| Parsing.Parser.ParseOnErrorGoto | parser.c:164-171 | accepts exactly `ON ERROR GOTO identifier`, consumes four tokens, and returns the identifier's text |
| Parsing.Parser.ParseSelectCase | parser.c:174-190 | agrees with `SelectCaseStatement`: `SELECT CASE expr`, the arms, then ENDSELECT consumed |
| Parsing.Parser.ParseCaseArms | parser.c:178-187 | agrees with `CaseArms`: stops on ENDSELECT, and diverges past the end of the tokens |
| Parsing.Parser.ParseCaseArm | parser.c:181-183 | agrees with the shape `expr : block` |
| Parsing.Parser.ParseDataStatement | parser.c:193-200 | agrees with `DataStatement`: DATA, then everything up to, not including, the next NEWLINE |
| Parsing.Parser.ParseReadStatement | parser.c:203-208 | accepts exactly `READ identifier` and returns the identifier's text |
| Parsing.Parser.ParseRestoreStatement | parser.c:211-214 | accepts exactly RESTORE and consumes one token |
| Parsing.Parser.ParseDimStatement | parser.c:217-222 | accepts exactly `DIM identifier` and returns the identifier's text |
| Parsing.Parser.ParsePokeStatement | parser.c:225-231 | agrees with the shape `POKE expr , expr` |
| Parsing.Parser.ParsePeekExpression | parser.c:234-240 | agrees with the shape `PEEK ( expr )` |
| Parsing.CaseArms | parser.c:178-187 | on success the loop stops at an ENDSELECT inside the tokens; starting past the end, it never stops |
| Parsing.SelectCaseStatement | parser.c:174-190 | success requires SELECT then CASE, and ends just past an ENDSELECT |
| Parsing.DataEnd | parser.c:195-198 | the index of the first NEWLINE, with none before it; with no NEWLINE at all, the loop never stops |
| Parsing.DataStatement | parser.c:193-200 | success requires a leading DATA |
| Parsing.KeywordIdentifierPair | parser.c:142-155 | a keyword followed by an identifier succeeds exactly on that pair and consumes two tokens |
| Parsing.OnErrorGotoConsumesFour | parser.c:164-171 | ON ERROR GOTO identifier succeeds exactly on those four kinds and consumes four tokens |
| Parsing.PokeNeedsComma | parser.c:228 | in POKE, any token other than a comma after the first expression is an error naming the comma |
| Parsing.PeekNeedsClosingBracket | parser.c:238 | in PEEK, any token other than `)` after the expression is an error naming it |
| Parsing.Parser.Lookahead | parser.c:245-258 | returns the n-th token ahead and restores `current_token`, but the source stays n tokens further on |
| Parsing.Parser.LookaheadRestoring | parser.c:245-258 | returns the n-th token ahead and leaves the whole parser state as it was |
| Parsing.LookaheadThenAdvanceSkipsToken | parser.c:245-258 | on tokens A B C: a peek at B followed by an advance makes C current, so B is lost |
| Parsing.LookaheadRestoringThenAdvanceKeepsToken | parser.c:245-258 | on tokens A B C: a peek at B followed by an advance makes B current |
| Execution.CDiv | interpreter.c:261 | C's `/`: the remainder has the sign of the dividend and is smaller in size than the divisor |
| Execution.Int32Result | interpreter.c:258-261 | a result exists exactly when the value fits in an `int` |
| Execution.ApplyOperator | interpreter.c:258-263 | `+`, `-`, `*` give the sum, difference and product, and `/` the quotient truncated toward zero, each an overflow error when it does not fit an `int`; `/` fails with division by zero exactly when the right operand is 0; any other text is an unknown-operator error |
| Execution.NumberOf | interpreter.c:249 | `atoi` of a node's text; a NULL text is an error |
| Execution.Evaluate | interpreter.c:247-268 | evaluation in an `int` store gives an `int`; any node type other than literal, identifier or operator is an error |
| Execution.EvaluateReadsOnlyItsSlots | interpreter.c:250-257 | evaluation depends only on the variables the expression's identifiers name |
| Execution.EvaluateDecimalLiteral | interpreter.c:248-249 | a literal whose text is the decimal form of an `int` evaluates to that `int` |
| Execution.EvaluateIdentifier | interpreter.c:250-254 | an identifier naming slot i evaluates to variable i |
| Execution.EvaluateIdentifierReadsAtoiSlot | interpreter.c:250-254 | for any name, an identifier evaluates to the variable in the slot `atoi` reads from the name, when that slot is in range |
| Execution.EvaluateLetterName | interpreter.c:250-254 | an identifier whose name starts with a letter, such as `X`, evaluates to variable 0 |
| Execution.EvaluateDigitLiteral | interpreter.c:248-249 | a literal made only of digits, leading zeros included, evaluates to the number they write, or to an overflow error when that is out of `int` range |
| Execution.EvaluateOperator | interpreter.c:255-263 | an operator node evaluates its left child, then its right child, passing on the first error, and applies its operator text to the two values |
| Execution.EvaluatePrecedenceExample | interpreter.c:255-263 | the tree `2 + (3 * 4)` evaluates to 14 |
| Execution.Zeros | interpreter.c:55 | the store `interpreter_init` clears: length n, every entry 0 |
| Execution.Initial | interpreter.c:65-72 | 1000 zero variables, running, and an empty stack |
| Execution.Push | interpreter.c:283-289 | the node goes on top; capacity stays, becomes 10 from 0, or doubles; size never exceeds capacity |
| Execution.Pop | interpreter.c:292-297 | an empty stack gives nothing and no change; otherwise the top node, with the stack shrunk by one |
| Execution.PopAfterPush | interpreter.c:283-297 | last in, first out: a pop right after a push returns the pushed node and restores the stack |
| Execution.PrintStatement | interpreter.c:135-145 | PRINT succeeds exactly when it has an expression that evaluates; it then appends exactly one line, the `"%d"` text of that value, which `atoi` reads back as the value; nothing else changes |
| Execution.Assignment | interpreter.c:148-153 | on success, the target has a text, the slot `atoi` reads from it is in range, the expression evaluates to the new value of that slot, and nothing else in the state changes; it succeeds whenever the expression evaluates and that slot is in range |
| Execution.Return | interpreter.c:222-229 | RETURN succeeds exactly when the stack is not empty |
| Execution.Statement | interpreter.c:99-132 | once `running` is false nothing happens; an unknown statement type is an error; a step never clears `running` and only appends output |
| Execution.If | interpreter.c:156-165 | keeps the state's invariants (variable count, `int` values, stack within capacity, `running`) |
| Execution.While | interpreter.c:168-174 | keeps the state's invariants |
| Execution.For | interpreter.c:177-188 | keeps the state's invariants |
| Execution.ForHeader | interpreter.c:178-181 | init and end are the first two children's values; the step is the third child's value, or 1 without one |
| Execution.ForLoop | interpreter.c:182-187 | keeps the state's invariants |
| Execution.RepeatUntil | interpreter.c:191-196 | keeps the state's invariants |
| Execution.SelectCase | interpreter.c:199-208 | keeps the state's invariants |
| Execution.Arms | interpreter.c:201-207 | keeps the state's invariants |
| Execution.Block | interpreter.c:271-280 | keeps the state's invariants; a node that is not a "block" node fails with `ExpectedBlockNode` |
| Execution.Statements | interpreter.c:276-279 | keeps the state's invariants |
| Execution.Run | interpreter.c:86-96 | a node other than "program" is an error; otherwise it keeps the state's invariants |
| Execution.NoOpStatements | interpreter.c:211-244 | GOTO, ON ERROR GOTO, DATA and READ change nothing |
| Execution.StoppedStatementsDoNothing | interpreter.c:92-95 | once `running` is false, a block or program runs no statement |
| Execution.AssignmentSetsOneSlot | interpreter.c:148-153 | for any target text, assignment sets exactly the slot `atoi` reads from it to the value; every other slot and every other part of the state is unchanged |
| Execution.AssignmentToNumberedSlot | interpreter.c:148-153 | a target written as the decimal text of slot n assigns slot n |
| Execution.LetterNamesShareSlotZero | interpreter.c:150 | a target whose name starts with a letter assigns slot 0 |
| Execution.IfChoosesBranch | interpreter.c:156-165 | the THEN block runs exactly on a non-zero condition; on zero, the ELSE block if there is one, otherwise nothing |
| Execution.RepeatStopsWhenConditionHolds | interpreter.c:191-196 | at any iteration, REPEAT runs its body before testing. It stops in the body's state when the condition is then non-zero or `running` is false, and otherwise goes round again from that state |
| Execution.RepeatExitsOnNonZero | interpreter.c:191-196 | a REPEAT loop that ends with `running` set ends in a state where its condition is non-zero |
| Execution.WhileSkippedWhenZero | interpreter.c:168-174 | a WHILE whose condition is 0 leaves the state unchanged |
| Execution.WhileRunsBodyOnNonZero | interpreter.c:168-174 | at any iteration, a non-zero condition runs the body; the loop stops in the body's state if `running` is now false, and otherwise goes round again from it |
| Execution.WhileExitsOnZero | interpreter.c:168-174 | a WHILE loop that ends with `running` set ends in a state where its condition is 0 |
| Execution.GosubThenReturn | interpreter.c:216-229 | GOSUB pushes its own node; a following RETURN succeeds and restores the stack |
| Execution.ForValues | interpreter.c:182 | with a positive step, there are no values exactly when `init > end` |
| Execution.ForValuesAreSteps | interpreter.c:182 | with a positive step: the k-th value is `init + k*step`, each is at most `end`, and one more step would pass `end` |
| Execution.ForLoopRunsForValues | interpreter.c:182-187 | with enough fuel and no overflow, the FOR body runs once for each of `init`, `init+step`, … up to `end`, in order, with the variable set to that value |
| Execution.ForSkippedWhenStartAboveEnd | interpreter.c:177-188 | a FOR loop whose start is above its end leaves the state unchanged, with or without a step child |
| Execution.FirstMatch | interpreter.c:201-203 | the first arm whose value equals the selector; no arm before it matches |
| Execution.ArmsRunFirstMatch | interpreter.c:199-208 | when every arm's value evaluates, SELECT CASE runs only the first matching arm's block (an error if that arm has none), and nothing when no arm matches |
| Execution.ArmsRunMatchAt | interpreter.c:199-208 | SELECT CASE runs arm k's block when arm k is the first match; the arms after k are never read, so they may be malformed |
| Execution.ArmsSkipToMatch | interpreter.c:201-206 | the arms before the first match are passed over: running the arms from `i` is running them from the matching arm `k` |
| Execution.ArmSkipped | interpreter.c:201-202 | an arm whose value differs from the selector passes on to the next arm |
| Execution.ArmTaken | interpreter.c:202-205 | an arm whose value is the selector runs its block and ends the statement |
| Interpreting.Interpreter.constructor | interpreter.c:52-62 | the initial state: 1000 zero variables, running, and an empty stack with capacity 0 |
| Interpreting.Interpreter.Init | interpreter.c:65-74 | the state becomes the initial state again; the output so far is kept |
| Interpreting.Interpreter.RunProgram | interpreter.c:86-96 | ends in the state `Run` computes, or with its error |
| Interpreting.Interpreter.ExecuteBlock | interpreter.c:271-280 | ends in the state `Block` computes, or with its error |
| Interpreting.Interpreter.ExecuteStatements | interpreter.c:92-95 | the statement loop ends in the state `Statements` computes |
| Interpreting.Interpreter.ExecuteStatement | interpreter.c:99-132 | ends in the state `Statement` computes, or with its error |
| Interpreting.Interpreter.ExecutePrint | interpreter.c:135-145 | appends the line that `PrintStatement` gives |
| Interpreting.Interpreter.ExecuteAssignment | interpreter.c:148-153 | writes the one array slot that `Assignment` gives |
| Interpreting.Interpreter.ExecuteIf | interpreter.c:156-165 | ends in the state `If` computes, or with its error |
| Interpreting.Interpreter.ExecuteWhile | interpreter.c:168-174 | the loop ends in the state `While` computes, or with its error |
| Interpreting.Interpreter.ExecuteFor | interpreter.c:177-188 | the loop ends in the state `For` computes, or with its error |
| Interpreting.Interpreter.ExecuteForLoop | interpreter.c:182-187 | counting from `init`, ends in the state `ForLoop` computes, or with its error |
| Interpreting.Interpreter.ExecuteForBody | interpreter.c:183-185 | sets the loop variable, runs the body block, and ends in the state `Block` computes from there, or with its error |
| Interpreting.Interpreter.ExecuteRepeatUntil | interpreter.c:191-196 | the loop ends in the state `RepeatUntil` computes, or with its error |
| Interpreting.Interpreter.ExecuteSelectCase | interpreter.c:199-208 | the loop over the arms ends in the state `SelectCase` computes, or with its error |
| Interpreting.Interpreter.ExecuteReturn | interpreter.c:222-229 | an error on an empty stack; otherwise pops |
| Interpreting.Interpreter.PushReturnStack | interpreter.c:283-289 | the stack and capacity become what `Push` gives |
| Interpreting.Interpreter.PopReturnStack | interpreter.c:292-297 | the top and the new stack are what `Pop` gives |

## Left out

- main.c is not part of this model. It is the GTK window, menus, file dialogs and clipboard; its "run" does not call the interpreter.
- The `main` demo drivers of lexer.c, ast.c, parser.c and interpreter.c are not modelled.
- Every `[DEBUG]` trace is left out. This includes the fields the traces read: READ's first child, and the label of the node RETURN pops.
- Memory management is not modelled: `malloc`, `realloc`, `strdup`, `free`, `free_ast_node` and `interpreter_free`. Nodes and tokens are values or Dafny objects. The return stack keeps only its size and capacity bookkeeping.
- `Execution.Push`: capacity is an unbounded integer, so the model ignores the overflow of `capacity * 2`, which would need more than 2^30 pushes.
- `Ast.AstNode.constructor`: `create_ast_node` leaves the `children_count` child slots uninitialised, as `malloc` returns them; the model fills them with null. A read of a slot before `add_child` fills it is undefined behaviour in C and is not modelled.
- `exit(1)` is modelled as an error result. The model does not say what state the process was in when it stopped.
- Several cases that are undefined behaviour in C are errors in the model: signed overflow, division by zero, a missing child, a NULL text, and a variable index outside the store. The model does not follow what a C compiler would do in those cases.
- Loops that never end are not modelled. `Execution.While`, `Execution.ForLoop` and `Execution.RepeatUntil` run the body at most `fuel` times, counted down in `left`, then fail with `OutOfFuel`. So do the methods that implement them: `Interpreting.Interpreter.ExecuteWhile`, `ExecuteForLoop` and `ExecuteRepeatUntil`. A loop that never ends is not told apart from one that needs more fuel than given. This covers:
  - WHILE on a condition that stays non-zero;
  - REPEAT on a condition that stays 0;
  - FOR with a step of 0 or less.
- The output callback is the `output` sequence: one line per PRINT, the same whether or not a callback is set.
- parser.c's stand-in `lexer_next_token` is replaced by a token sequence that yields EOF past its end.
- `parse_expression`, `parse_block` and the other parse functions are declared but not defined in parser.c. They appear only as the sub-parser maps, and only as called by the modelled recognisers.
- `Parsing.Parser.Lookahead`: it requires `n >= 1`, because for `n <= 0` parser.c returns an uninitialised token.
- Each file keeps its own types. ast.c's node enumeration and interpreter.c's string node types are not connected, and neither are lexer.c's and parser.c's token enumerations. For example, ast.c's FOR node holds `block, step, condition, init`, while interpreter.c reads `init, end, step, block`.
- The `<ctype.h>` tests are those of the "C" locale. Source text is a string without NUL characters (`Lexing.IsCString`), so `strlen` is its length and the scanning loops stop only at its end; `NextTokenAt`, `Tokenize` and the lexer lemmas require it.

## Findings

| source | as written | input that shows it | evidently intended | confidence | as-written member | corrected member |
|---|---|---|---|---|---|---|
| parser.c:245-258 | `lookahead(n)` saves and restores `current_token` but not the token source, so the n tokens it pulled stay consumed | tokens `A B C`, current A: `lookahead(1)` returns B, and the next `advance_token` makes C current, so B is never parsed | peeking has no effect on the token stream: after `lookahead(1)`, `advance_token` makes B current | not executed | Parsing.LookaheadThenAdvanceSkipsToken | Parsing.LookaheadRestoringThenAdvanceKeepsToken |
