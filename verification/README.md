# C-minus front end: scanner and recursive-descent parser

This project models the front end of a compiler for C-minus, the small
C-like teaching language. It is written in Dafny, and the model stays as
close to the C code as it can.

- **Scanner** (`getToken`). It is a deterministic finite automaton with the
  states `START`, `LCOMMENT`, `INCOMMENT`, `RCOMMENT`, `INNUM`, `INID`,
  `INLE`, `INGE`, `INEQ` and `INNEQ`.
  - It reads a flat character sequence through a cursor.
  - It has one character of pushback, and pushback is disabled once end of
    input has been read.
  - The lexeme buffer silently drops characters beyond its cap.
  - A complete identifier is looked up in the six-entry reserved-word table.
  - Module `Scan` models it. Module `ScanProps` holds the properties:
    - the token each kind of input yields;
    - comments and whitespace are skipped;
    - end of input;
    - the reserved-word table.
- **Parser** (`parse`). It is a recursive-descent parser with one token of
  lookahead. It builds the syntax tree of the shared data model:
  - nodes with four child slots, a sibling link and an attribute payload;
  - statement and expression subkinds.
  - Module `Parse` models it as mutually recursive functions over a token
    stream that ends in `ENDFILE` forever.
  - Each function returns the tree, the next position and the diagnostics
    so far.
  - There are two explicit outcomes for what the C code does without
    returning:
    - `Diverges` is the block loop spinning at end of input;
    - `NullDeref` is a write through a null tail pointer.
- **Shared data model.** Module `Globals` holds the token kinds, the node
  kinds and the tree.
- **Chains.** Module `ParseChains` defines, for each loop that links
  results into a sibling chain, the sequence of results of its successive
  calls, and states the chain the loop returns against that sequence.
- **Scenarios.** The lemmas of module `ParseScenarios` state what the parser
  returns on particular token patterns.
  Several record places where the code departs from the grammar in its own
  comments. Those departures are modelled as written, not corrected, for
  example:
  - `x = y + 2 * 3;` is the assignment of `y`;
  - `int a[10];` never consumes the number;
  - a parameter list keeps its last parameter.
- **Connecting the two.** Module `Front` connects scanner and parser:
  - the token stream the parser reads is what successive `getToken` calls
    return, past the end included;
  - the final check in `parse` never reports.

The lexeme cap (`MAXTOKENLEN`, defined in `scan.h`, which is not part of
this model) is a parameter `maxTokenLen` of the scanner.

## Model

| member | source | states |
|---|---|---|
| Globals.NewNode | globals.h:92-110 | A new node has the requested kind, all four child slots empty, no sibling and no payload |
| Globals.Siblings | globals.h:92-110 | The sibling chain lists only nodes, starts at the head and is empty exactly for a null pointer |
| Globals.Link | globals.h:92-110 | Setting a sibling keeps the node apart from its link, leaves a null pointer null, and keeps well-formedness |
| Scan.GetNextChar | scan.c:36-57 | Before the end, reads the next character and advances by one. At the end, returns EOF and sets the end flag |
| Scan.UngetNextChar | scan.c:61-65 | Steps back one character unless the end flag is set, in which case it does nothing |
| Scan.PushbackUndoesRead | scan.c:36-65 | Pushing back after a read restores the cursor. After reading EOF, pushback leaves the cursor at the end with the flag set |
| Scan.LookupFrom | scan.c:76-85 | Linear search: the result is the token of a matching table entry, or ID exactly when no entry from `i` on matches |
| Scan.ReservedLookup | scan.c:68-85 | Returns the token of the table entry whose word equals the string, and ID exactly when no entry matches. The result is always ID or a reserved-word token |
| Scan.Transition | scan.c:108-288 | Summarises the state table. It never moves to DONE. Only LCOMMENT on `*` clears the buffer. Only `/` from START enters LCOMMENT, and it is saved. Comment states never save. ENDFILE comes only from EOF in START or in a comment, and is neither saved nor pushed back. ID comes only from INID |
| Scan.Save | scan.c:289-290 | A saved character is appended only while the buffer holds at most the cap. Otherwise the buffer is unchanged |
| Scan.Step | scan.c:103-297 | One loop pass either reads a real character and keeps the buffer invariant, or finishes with a valid cursor and a lexeme within the cap. ENDFILE finishes at the end with an empty lexeme |
| Scan.Run | scan.c:103-297 | The loop ends with a valid cursor and a lexeme of at most cap+1 characters. ENDFILE leaves the cursor at the end with an empty lexeme. Any other token from START has consumed a character |
| Scan.LookUpIdentifier | scan.c:291-297 | Only an identifier token is replaced, by the table lookup of its completed lexeme. Lexeme and cursor are untouched |
| Scan.GetToken | scan.c:93-308 | Every token other than ENDFILE advances the cursor. ENDFILE leaves the cursor at the end with an empty lexeme. At the end every call returns ENDFILE |
| Scan.TokenizeFrom | scan.c:93-308 | The precomputed stream holds no ENDFILE token, and has no more tokens than characters are left |
| ScanProps.RunEnd | scan.c:223-242 | Reference definition of a maximal run of digits or letters: every character before the end is in the class, and the character at the end is not |
| ScanProps.Trunc | scan.c:289-290 | A truncated lexeme is a prefix within the cap, and is the whole text when the text fits |
| ScanProps.ReservedTable | scan.c:68-72 | The six table entries have distinct words and distinct tokens, and they are exactly the reserved-word tokens |
| ScanProps.ReservedLookupExact | scan.c:68-85 | Each reserved token is returned for exactly its one spelling, and ID for every other string |
| ScanProps.ReservedLookupIsCaseSensitive | scan.c:76-85 | Lookup compares exactly: `If`, `WHILE` and `Int` are identifiers |
| ScanProps.RunScan | scan.c:223-242 | From START, a digit or letter runs to the end of its maximal run. The run's first character is saved and the first character outside it is pushed back |
| ScanProps.RunInRun | scan.c:223-242 | Inside a run, the loop ends at the run's end with the truncated run text as lexeme |
| ScanProps.NumberScan | scan.c:223-232 | A digit starts NUM, whose lexeme is the maximal digit run, capped. The cursor stops at the first non-digit |
| ScanProps.IdentifierScan | scan.c:233-297 | A letter starts an identifier, whose lexeme is the maximal letter run. Its token is the table lookup of that lexeme, so `x1` stops before the digit |
| ScanProps.TwoCharOperators | scan.c:175-222 | `<`, `>`, `=`, `~` followed by `=` give LE/GE/EQ/NEQ and consume both characters. Otherwise they give LT/GT/ASSIGN/ERROR, push one character back and do not save it |
| ScanProps.SlashScan | scan.c:243-256 | `/` not followed by `*` gives OVER and pushes the lookahead back. The lookahead is still saved, so the lexeme is `/` plus that character, or 0xFF at end of input |
| ScanProps.PunctTokensDistinct | scan.c:136-171 | Each of `+ - * ( ) ; , [ ] { }` has its own token, and none of them is ERROR |
| ScanProps.PunctScan | scan.c:136-171 | Each of those characters gives its token, with itself as lexeme, after one character |
| ScanProps.OtherCharScan | scan.c:169-171 | Any other character is consumed and yields ERROR |
| ScanProps.WhitespaceSkipped | scan.c:125-126 | Space, tab, newline and carriage return produce nothing: the call gives what the call after them gives |
| ScanProps.FindClose | scan.c:257-281 | Reference definition of where a comment ends: the first `*` `/` pair at or after a position, or none |
| ScanProps.InCommentRun | scan.c:257-267 | Inside a comment, the loop skips to just after the first close and scans on from there. Without a close it returns ENDFILE |
| ScanProps.RCommentRun | scan.c:268-281 | After a `*` in a comment, a further `*` stays in RCOMMENT, so `**/` closes. `/` closes, and anything else re-enters the comment |
| ScanProps.CommentOpens | scan.c:243-256 | `/` `*` enters the comment with an empty buffer, two characters on |
| ScanProps.CommentSkipped | scan.c:243-281 | A comment contributes nothing: the call gives what a call just after the first close gives, and ENDFILE when the comment never closes |
| ScanProps.TokenAhead | scan.c:110-172 | A character that is neither whitespace nor the start of a comment always gives a token other than ENDFILE |
| ScanProps.EndFileIffBlank | scan.c:110-134 | A call returns ENDFILE if and only if only whitespace and comments remain, an unclosed comment included |
| ScanProps.BlankInputHasNoTokens | scan.c:93-308 | The token stream is empty exactly when the input is blank |
| ScanProps.EndFileRepeats | scan.c:49-53 | Once a call returns ENDFILE, the next call returns it again from the same cursor: pushback is off at the end |
| ScanProps.TerminatorOverrun | scan.c:289-294 | The lexeme can be cap+1 characters long, so the terminator lands at index cap+1, one past the buffer of `tokenString` |
| Parse.Advance | parse.c:46-56 | Reading the next token moves one position, except at ENDFILE, where the scanner keeps returning ENDFILE |
| Parse.Match | parse.c:46-56 | The token is consumed if and only if it is the expected one. On a mismatch exactly one report is added and the position stays |
| Parse.Skip | parse.c:90-94 | The `default:` recovery reports the current token and consumes it |
| Parse.ConstAt | parse.c:131-135 | A constant node gets the value of the current lexeme exactly when the current token is NUM, and otherwise no value |
| Parse.TypeSpecifier | parse.c:77-97 | Gives a node exactly for `int` or `void`, with no report. Anything else gives null, one report and one token skipped |
| Parse.Declaration | parse.c:101-113 | Gives null or a variable or function declaration node, well formed, with no sibling, and never moves back |
| Parse.DeclarationTail | parse.c:116-164 | `;` gives VarDecl(type, id) and is consumed. `[` gives VarDecl(type, ArrayDecl(id, ...)). `(` gives Func with the type, the name, a ParamsK node and a CompK body. Anything else gives null with one report |
| Parse.ArrayDeclTail | parse.c:126-141 | The `[` branch builds VarDecl(type, ArrayDecl(id, the constant read at the token after `[`)). When that token is NUM it is never consumed: the state is just past `[`, with two reports of the number. `[ ] ;` is consumed whole with no report |
| Parse.FunDecl | parse.c:142-156 | The `(` branch gives a FuncK node of the type, the name, the ParamsK node `param_list` returns after `(`, and a CompK body |
| Parse.VarDecl | parse.c:169-181 | A local declaration is well formed, has no sibling, and consumes a token unless at ENDFILE |
| Parse.VarDeclTail | parse.c:183-218 | `;`, `,` and `)` all end a plain variable and are consumed. `[` gives an array declaration. Anything else gives null with one report |
| Parse.ParamList | parse.c:221-240 | Always a ParamsK node. It has a child exactly when the list starts with `void` or `int` |
| Parse.ParamList1 | parse.c:243-274 | The `void` list gives a ParamK node |
| Parse.ParamList2 | parse.c:277-308 | The `int` list gives a ParamK node |
| Parse.ParamLoop | parse.c:265-271 | The comma loop returns a ParamK node, and its argument unchanged when no comma follows |
| Parse.OptBrackets | parse.c:328-336 | Without `[` the parameter and state are unchanged. With `[` the third child becomes the empty-name marker and the rest of the node is kept; `[ ]` is consumed with no report |
| Parse.Param | parse.c:311-338 | A ParamK node whose type and name are attached exactly when the type is `int` or `void`. The type is the `type_specifier` node, and the name is the identifier after it when one follows |
| Parse.Stmt | parse.c:342-372 | Any token outside IF/WHILE/RETURN/ID/LPAREN/NUM/LBRACE, `;` included, gives null with one report and one token skipped. Otherwise a consumed token unless at ENDFILE |
| Parse.Condition | parse.c:379-383 | The head `kw ( exp )` of a selection or iteration never diverges, gives a well-formed condition, and consumes the keyword when it is current |
| Parse.Selection | parse.c:376-393 | Gives an IfK node and consumes the `if`. Its children are the condition, then the statement parsed after the condition; the fourth slot is empty |
| Parse.IfBranches | parse.c:384-391 | Children: the condition, the then-branch statement, and the statement after `else` when `else` follows it, otherwise nothing; the state is after the last branch parsed. The fourth slot is empty |
| Parse.Iteration | parse.c:396-413 | A WhileK node of the condition and the body statement parsed after it, the other slots empty, ending after the body. The `while` is consumed |
| Parse.Return | parse.c:416-425 | Gives a ReturnK node. Its child is empty when no ID, `(` or NUM follows the keyword |
| Parse.ExpStmt | parse.c:428-450 | Never diverges, and consumes a token unless at ENDFILE |
| Parse.Compound | parse.c:453-506 | A CompK node whose first child is what the block loop returns after `{`, the other slots empty. The `}` is matched after the loop |
| Parse.CompoundLoop | parse.c:453-506 | The block loop only returns on `}`. Every outcome is well formed |
| Parse.CompoundItem | parse.c:453-506 | One pass of the block loop consumes a token unless at ENDFILE |
| Parse.Exp | parse.c:603-685 | Never diverges. Results are well formed with no sibling, and a token is consumed unless at ENDFILE |
| Parse.ParenExp | parse.c:665-670 | The `(` branch consumes the parenthesis. The result is the expression parsed after it, or a relational-operator node built by `simple_exp` |
| Parse.IdExp | parse.c:614-664 | After an identifier, any follower outside `[ ( =`, the operators and `; ) ,` gives null with no report and nothing consumed |
| Parse.AssignTail | parse.c:652-658 | `=` gives an AssignK node of the left-hand side and the expression parsed after `=`, ending where that expression ends |
| Parse.IndexExp | parse.c:619-638 | The `[` branch never diverges and gives a well-formed tree |
| Parse.CallExp | parse.c:639-649 | The `(` branch never diverges and gives a well-formed tree |
| Parse.ElemExp | parse.c:627-637 | After an array element, `=` gives an AssignK node whose first child is the element. An expression follower gives the element itself or an operator node over it. Any other token gives null, with no report and nothing consumed |
| Parse.SimpleExp | parse.c:687-727 | The result is the argument itself or a relational-operator node. A null argument gives null with nothing consumed. No operator gives the argument unchanged |
| Parse.MulLoop | parse.c:694-701 | Leaves no `*` or `/` current. Without one, gives its term node unchanged. With one, the operator's left child is the original argument |
| Parse.AddLoop | parse.c:704-711 | Leaves no `+` or `-` current. Without one, gives its node unchanged. With one, the operator's left child is the term node |
| Parse.AdditiveExp | parse.c:730-747 | After the term, `+` or `-` gives an operator node over the term. A relational operator, `)` or `;` gives the term itself. Any other token gives null |
| Parse.Term | parse.c:749-766 | After the factor, `*` or `/` gives an operator node over the factor. `+`, `-`, `)` or `;` gives the factor itself. Any other token gives null |
| Parse.Factor | parse.c:510-571 | Never diverges, and gives a well-formed tree with no sibling |
| Parse.FactorTail | parse.c:574-600 | Never diverges, and gives a well-formed tree with no sibling |
| Parse.Args | parse.c:769-798 | `)` gives null with nothing consumed. A non-null result is an ArgsK node |
| Parse.ArgsLoop | parse.c:783-788 | Stops at the first non-comma. A comma after a null element writes through a null pointer |
| Parse.Program | parse.c:59-74 | Returns only at ENDFILE, with a well-formed chain of declarations |
| Parse.ProgramLoop | parse.c:63-72 | While the tail is null the chain stays null. Every outcome is a declaration chain ending at ENDFILE |
| ParseChains.DeclRun | parse.c:63-72 | The declarations the loop of `program` calls, in order, up to ENDFILE, or the first call that does not return |
| ParseChains.ProgramLoopOrder | parse.c:63-72 | With a tail, the loop returns the non-null declarations in call order, linked; a call that does not return ends the loop with its outcome |
| ParseChains.ProgramLoopFaults | parse.c:63-72 | Without a tail, the loop returns null when every declaration is null, and writes through a null pointer when one is not |
| ParseChains.ProgramOrder | parse.c:59-74 | `program` links the non-null declarations from the first to ENDFILE in call order |
| ParseChains.ProgramFails | parse.c:59-74 | `program` fails with the first declaration call that does not return, and a null first declaration followed by a non-null one faults |
| ParseChains.ProgramSiblings | parse.c:59-74 | Read back through the sibling links, the program lists the non-null declarations in call order |
| ParseChains.ItemRun | parse.c:458-502 | The items the block loop parses, in order, up to `}`: unexpected tokens are skipped, and end of input never returns |
| ParseChains.CompoundLoopOrder | parse.c:458-502 | The block loop returns the non-null items in call order, linked |
| ParseChains.CompoundOrder | parse.c:453-506 | The block's first child is the chain of its non-null items in source order |
| ParseChains.ArgRun | parse.c:783-788 | The expressions the loop of `args` parses, one after each comma |
| ParseChains.ArgsLoopOrder | parse.c:783-788 | The loop returns the expressions in call order, linked, unless a link goes through a null element, which faults |
| ParseChains.ArgsOrder | parse.c:769-798 | An argument list is an ArgsK node over the chain of all its expressions in order when no link goes through a null expression |
| ParseChains.ArgsFail | parse.c:769-798 | A null expression followed by a comma faults |
| ParseChains.ArgsStop | parse.c:769-798 | An expression call that does not return ends the list with no result |
| ParseChains.ParamRun | parse.c:265-271 | The parameters the comma loop parses, one after each comma |
| ParseChains.ParamLoopLast | parse.c:265-271 | The comma loop ends holding the last parameter it parsed, or its argument when no comma follows |
| ParseChains.ChainSiblings | globals.h:92-110 | Linking nodes one after another lists exactly those nodes through the sibling links, in order |
| Parse.ParseTokens | parse.c:806-814 | The result is a well-formed declaration chain, and parsing stops at ENDFILE |
| ParseScenarios.AssignDropsOperators | parse.c:687-727 | `x = y + 2 * 3 ;` parses as Assign(x, y) with no report: `simple_exp` returns its argument when no relational operator follows |
| ParseScenarios.NumberLeavesOperator | parse.c:671-677 | `3 + 4 ;` is the constant 3 followed by a report at `+`, because `simple_exp` runs before the number is matched |
| ParseScenarios.TermDropsBeforeRelop | parse.c:749-766 | In `a + b < c ;` the `b` is lost: `term` gives null when a relational operator follows its factor |
| ParseScenarios.CallChainsArguments | parse.c:639-649 | `f ( a , b ) ;` is a call whose ArgsK child heads the chain `a`, `b` |
| ParseScenarios.ArgsNullFaults | parse.c:769-798 | `f ( ( ] ) , b )` writes through a null pointer: the first argument is null and the loop stores the next one as its sibling |
| ParseScenarios.BareReturn | parse.c:416-425 | `return ;` is a ReturnK node with no child, and both tokens are consumed |
| ParseScenarios.DanglingElse | parse.c:376-393 | `if ( x ) if ( y ) return ; else return ;` gives the `else` to the inner `if` |
| ParseScenarios.BlockInterleaves | parse.c:453-506 | `{ x ; int y ; }` is accepted. Statements and declarations are chained in source order |
| ParseScenarios.ArrayDeclLeavesNumber | parse.c:126-141 | `int a [ 10 ] ;` never consumes the number. `]` and `;` are both reported against it, and parsing resumes at the number |
| ParseScenarios.VoidParams | parse.c:243-274 | `void` alone is a parameter list of one parameter of type `void` |
| ParseScenarios.FunctionDeclaration | parse.c:142-156 | `int f ( void ) { }` is Func(type, name, params, body) |
| ParseScenarios.UnclosedBodyDiverges | parse.c:453-506 | A function body still open at end of input never returns |
| ParseScenarios.ParamListKeepsLast | parse.c:277-308 | `int a , int b` gives a parameter list whose child is `b`, the last parameter instead of the first |
| ParseScenarios.ProgramFirstNullFaults | parse.c:59-74 | `int x y int z ;` writes through a null pointer: the first declaration is null, so there is no tail to link the second to |
| ParseScenarios.EmptyProgram | parse.c:59-74 | An empty stream is a null program with three reports: type, name and tail of the one declaration attempted |
| ParseScenarios.TwoDeclarations | parse.c:59-74 | `int x ; int y ;` is the chain of the two declarations in source order, with no report |
| Front.CallsAfterEnd | scan.c:49-53 | After a call returns ENDFILE, every later call returns the same ENDFILE with an empty lexeme |
| Front.StreamIsCalls | parse.c:46-56 | Index `n` of the token stream holds the token and lexeme of the `n`-th `getToken` call, past the end included. So a parser over the stream sees what the parser calling the scanner sees |
| Front.ParseSource | parse.c:806-814 | Parsing the scanner's tokens gives a well-formed declaration chain. A blank source parses as the empty stream |
| Front.ParseCheckNeverFires | parse.c:806-814 | The leftover-token report in `parse` never fires, because `program` only returns at ENDFILE |
| Front.DeclChainSiblings | parse.c:59-74 | A tree is a declaration chain if and only if every node of its sibling list is a declaration |

## Left out

- Line numbers, the `fgets` line buffer and the listing output (echoed source, token traces, `printToken`, `printTree`) are not modelled. Input is one flat character sequence; a line split by the buffer only changes line numbers.
- A NUL character inside a line is not modelled as the C code treats it. `getNextChar` measures each line with `strlen` (scan.c:45), so a NUL ends the line, and what follows it up to the newline is never scanned. For the input `a`, NUL, `b` the C code gives ID then ENDFILE; the model gives ID, ERROR, ID.
- Diagnostics carry the offending token and position only, not their message text. The leftover-token report of `parse` is one constant.
- `relop`, `newStmtNode`, `newExpNode` and `copyString` are in util.h, whose bodies are not part of this model. `relop` is taken as membership in the six relational operators. Allocation always succeeds with every slot empty, so the allocation-null checks in the parser collapse.
- `MAXTOKENLEN` is defined in scan.h, which is not part of this model. It is a parameter of the scanner.
- Character classes are ASCII only (`isalpha` is locale-dependent in C). The signed `char` value 0xFF colliding with EOF is not modelled: input characters are never EOF.
- `atoi` is modelled as C white-space skipping, an optional `-` or `+`, then the value of the leading digits as an unbounded integer: overflow is not modelled.
- Memory leaks of discarded nodes and `main.c` (arguments, file names, opening files, exit codes) are out of scope.
- Scan.Transition: the `DONE` and `default` case of the state switch (scan.c:282-288) is unreachable, because the loop stops at `DONE`. It is excluded by the requires rather than modelled as the ERROR token it would give.
- Parse.Later: the diagnostics are only stated not to shrink in number. The model in fact only ever appends to them, which is stronger than what is stated.
- Parse.Exp, Parse.Factor, Parse.FactorTail, Parse.IndexExp and Parse.CallExp: their contracts state well-formedness, termination and progress only. The exact shapes they build are stated for concrete token patterns by the lemmas of `ParseScenarios`.
- Parse.ParamList1 and Parse.ParamList2: their contracts give the node kind only. That the list keeps its last parameter is stated by `ParseChains.ParamLoopLast` for the loop and by `ParseScenarios.ParamListKeepsLast` on a token pattern.
- TokenType is modelled by the enumeration's values 0 to 28 in declaration order. Token spellings used only by the printing helpers are not modelled.
