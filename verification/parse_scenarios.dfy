/** The parser on token patterns: for every stream whose kinds from index
    `p` are the ones given, the tree a procedure builds, where it stops and
    what it reports. Several of these record places where the code departs
    from the grammar it implements. Names and numbers are whatever lexemes
    the stream holds.

    Each lemma unfolds one or two procedures and takes what the procedures
    below it return from the lemmas before it. */
module ParseScenarios {
  import opened Globals
  import opened Parse

  function IntType(): Tree {
    Leaf(ExpK(IntK))
  }

  function VoidType(): Tree {
    Leaf(ExpK(VoidK))
  }

  function ReturnNode(): Tree {
    Leaf(StmtK(ReturnK))
  }

  // ---------------------------------------------------------------------
  // Dispatch steps

  /** On an identifier, `expression` consumes it and continues with the
      identifier branch. */
  lemma ExpOnId(ts: seq<Lexed>, p: nat, e: seq<SyntaxError>)
    requires Tok(ts, p) == ID
    ensures Exp(ts, PState(p, e)) == IdExp(ts, PState(p + 1, e), NamedId(Text(ts, p)))
  {
  }

  lemma IdExpOnCall(ts: seq<Lexed>, st: PState, id: Tree)
    requires id.Node? && id.kind == ExpK(IdK) && WellFormed(id) && Detached(id)
    requires Tok(ts, st.pos) == LPAREN
    ensures IdExp(ts, st, id) == CallExp(ts, st, id)
  {
  }

  lemma IdExpOnAssign(ts: seq<Lexed>, st: PState, id: Tree)
    requires id.Node? && id.kind == ExpK(IdK) && WellFormed(id) && Detached(id)
    requires Tok(ts, st.pos) == ASSIGN
    ensures IdExp(ts, st, id) == AssignTail(ts, st, id)
  {
  }

  lemma IdExpOnFollower(ts: seq<Lexed>, st: PState, id: Tree)
    requires id.Node? && id.kind == ExpK(IdK) && WellFormed(id) && Detached(id)
    requires ExpFollower(Tok(ts, st.pos))
    ensures IdExp(ts, st, id) == SimpleExp(ts, st, id)
  {
  }

  /** `expression_stmt` matches `;` after the expression it parses. */
  lemma ExpStmtOnExp(ts: seq<Lexed>, p: nat, e: seq<SyntaxError>, t: Tree, st: PState)
    requires StartsExp(Tok(ts, p)) && Exp(ts, PState(p, e)) == Ok(Parsed(t, st))
    ensures ExpStmt(ts, PState(p, e)) == Ok(Parsed(t, Match(ts, st, SEMI)))
  {
  }

  lemma DeclarationOnName(ts: seq<Lexed>, p: nat, e: seq<SyntaxError>)
    requires Tok(ts, p) == INT && Tok(ts, p + 1) == ID
    ensures Declaration(ts, PState(p, e)) == DeclarationTail(ts, PState(p + 2, e), IntType(), NamedId(Text(ts, p + 1)))
  {
    assert TypeSpecifier(ts, PState(p, e)) == Parsed(IntType(), PState(p + 1, e));
  }

  /** One pass of the block loop on an item. */
  lemma CompoundLoopStep(ts: seq<Lexed>, p: nat, e: seq<SyntaxError>, q: Parsed, rest: Parsed)
    requires Tok(ts, p) != RBRACE && Tok(ts, p) != ENDFILE && StartsItem(Tok(ts, p))
    requires CompoundItem(ts, PState(p, e)) == Ok(q) && CompoundLoop(ts, q.st) == Ok(rest)
    ensures CompoundLoop(ts, PState(p, e)) == Ok(Parsed(Push(q.tree, rest.tree), rest.st))
  {
  }

  // ---------------------------------------------------------------------
  // Expressions

  lemma NumberTerm(ts: seq<Lexed>, p: nat, e: seq<SyntaxError>)
    requires Tok(ts, p) == NUM && Tok(ts, p + 1) == SEMI
    ensures Term(ts, PState(p, e)) == Ok(Parsed(ConstAt(ts, p), PState(p + 1, e)))
  {
    assert Factor(ts, PState(p, e)) == Ok(Parsed(ConstAt(ts, p), PState(p + 1, e)));
  }

  lemma ProductOfNumbers(ts: seq<Lexed>, p: nat, e: seq<SyntaxError>)
    requires Tok(ts, p) == NUM && Tok(ts, p + 1) == TIMES && Tok(ts, p + 2) == NUM && Tok(ts, p + 3) == SEMI
    ensures Term(ts, PState(p, e)) == Ok(Parsed(OpNode(TIMES, ConstAt(ts, p), ConstAt(ts, p + 2)), PState(p + 3, e)))
  {
    NumberTerm(ts, p + 2, e);
    assert Factor(ts, PState(p, e)) == Ok(Parsed(ConstAt(ts, p), PState(p + 1, e)));
  }

  lemma ProductSum(ts: seq<Lexed>, p: nat, e: seq<SyntaxError>)
    requires Tok(ts, p) == NUM && Tok(ts, p + 1) == TIMES && Tok(ts, p + 2) == NUM && Tok(ts, p + 3) == SEMI
    ensures AdditiveExp(ts, PState(p, e)) == Ok(Parsed(OpNode(TIMES, ConstAt(ts, p), ConstAt(ts, p + 2)), PState(p + 3, e)))
  {
    ProductOfNumbers(ts, p, e);
  }

  lemma SumLoop(ts: seq<Lexed>, p: nat, e: seq<SyntaxError>, y: Tree)
    requires Tok(ts, p) == PLUS && Tok(ts, p + 1) == NUM && Tok(ts, p + 2) == TIMES
    requires Tok(ts, p + 3) == NUM && Tok(ts, p + 4) == SEMI
    ensures var prod := OpNode(TIMES, ConstAt(ts, p + 1), ConstAt(ts, p + 3));
      AddLoop(ts, PState(p, e), y, Null) == Ok(Parsed(OpNode(PLUS, y, prod), PState(p + 4, e)))
  {
    ProductSum(ts, p + 1, e);
  }

  /** `simple_exp` on `+ n * n ;` consumes all of it and returns its
      argument. */
  lemma SumIsDropped(ts: seq<Lexed>, p: nat, e: seq<SyntaxError>, y: Tree)
    requires Tok(ts, p) == PLUS && Tok(ts, p + 1) == NUM && Tok(ts, p + 2) == TIMES
    requires Tok(ts, p + 3) == NUM && Tok(ts, p + 4) == SEMI
    requires y.Node?
    ensures SimpleExp(ts, PState(p, e), y) == Ok(Parsed(y, PState(p + 4, e)))
  {
    SumLoop(ts, p, e, y);
  }

  lemma AssignedSum(ts: seq<Lexed>, p: nat, e: seq<SyntaxError>)
    requires Tok(ts, p) == ID && Tok(ts, p + 1) == PLUS && Tok(ts, p + 2) == NUM && Tok(ts, p + 3) == TIMES
    requires Tok(ts, p + 4) == NUM && Tok(ts, p + 5) == SEMI
    ensures Exp(ts, PState(p, e)) == Ok(Parsed(NamedId(Text(ts, p)), PState(p + 5, e)))
  {
    ExpOnId(ts, p, e);
    IdExpOnFollower(ts, PState(p + 1, e), NamedId(Text(ts, p)));
    SumIsDropped(ts, p + 1, e, NamedId(Text(ts, p)));
  }

  lemma AssignOfSum(ts: seq<Lexed>, p: nat, e: seq<SyntaxError>, x: Tree)
    requires Tok(ts, p) == ASSIGN && Tok(ts, p + 1) == ID && Tok(ts, p + 2) == PLUS
    requires Tok(ts, p + 3) == NUM && Tok(ts, p + 4) == TIMES && Tok(ts, p + 5) == NUM && Tok(ts, p + 6) == SEMI
    requires WellFormed(x)
    ensures AssignTail(ts, PState(p, e), x)
      == Ok(Parsed(Plain(StmtK(AssignK), x, NamedId(Text(ts, p + 1)), Null, Null), PState(p + 6, e)))
  {
    AssignedSum(ts, p + 1, e);
  }

  /** `x = y + 2 * 3 ;` parses as the assignment of `y` to `x`: the
      operators are consumed without a report, and without a trace in the
      tree. */
  lemma AssignDropsOperators(ts: seq<Lexed>, p: nat, e: seq<SyntaxError>)
    requires Tok(ts, p) == ID && Tok(ts, p + 1) == ASSIGN && Tok(ts, p + 2) == ID && Tok(ts, p + 3) == PLUS
    requires Tok(ts, p + 4) == NUM && Tok(ts, p + 5) == TIMES && Tok(ts, p + 6) == NUM && Tok(ts, p + 7) == SEMI
    ensures ExpStmt(ts, PState(p, e))
      == Ok(Parsed(Plain(StmtK(AssignK), NamedId(Text(ts, p)), NamedId(Text(ts, p + 2)), Null, Null), PState(p + 8, e)))
  {
    var x := NamedId(Text(ts, p));
    AssignOfSum(ts, p + 1, e, x);
    ExpOnId(ts, p, e);
    IdExpOnAssign(ts, PState(p + 1, e), x);
    ExpStmtOnExp(ts, p, e, Plain(StmtK(AssignK), x, NamedId(Text(ts, p + 2)), Null, Null), PState(p + 7, e));
  }

  /** On a number, `expression` runs `simple_exp` while the number is still
      the current token, so an operator after it is left to the caller:
      `3 + 4 ;` is the constant 3, and `;` is matched against `+`. */
  lemma NumberLeavesOperator(ts: seq<Lexed>, p: nat, e: seq<SyntaxError>)
    requires Tok(ts, p) == NUM && Tok(ts, p + 1) == PLUS
    ensures ExpStmt(ts, PState(p, e)) == Ok(Parsed(ConstAt(ts, p), PState(p + 1, e + [Unexpected(PLUS, p + 1)])))
  {
    assert Exp(ts, PState(p, e)) == Ok(Parsed(ConstAt(ts, p), PState(p + 1, e)));
    ExpStmtOnExp(ts, p, e, ConstAt(ts, p), PState(p + 1, e));
  }

  /** `term` on an identifier followed by a relational operator. */
  lemma IdTermBeforeRelop(ts: seq<Lexed>, p: nat, e: seq<SyntaxError>)
    requires Tok(ts, p) == ID && IsRelop(Tok(ts, p + 1))
    ensures Term(ts, PState(p, e)) == Ok(Parsed(Null, PState(p + 1, e)))
  {
    assert Factor(ts, PState(p, e)) == Ok(Parsed(NamedId(Text(ts, p)), PState(p + 1, e)));
  }

  lemma TermBeforeRelop(ts: seq<Lexed>, p: nat, e: seq<SyntaxError>)
    requires Tok(ts, p) == ID && IsRelop(Tok(ts, p + 1))
    ensures AdditiveExp(ts, PState(p, e)) == Ok(Parsed(Null, PState(p + 1, e)))
  {
    IdTermBeforeRelop(ts, p, e);
  }

  lemma IdTerm(ts: seq<Lexed>, p: nat, e: seq<SyntaxError>)
    requires Tok(ts, p) == ID && Tok(ts, p + 1) == SEMI
    ensures Term(ts, PState(p, e)) == Ok(Parsed(NamedId(Text(ts, p)), PState(p + 1, e)))
  {
    assert Factor(ts, PState(p, e)) == Ok(Parsed(NamedId(Text(ts, p)), PState(p + 1, e)));
  }

  lemma LastOperand(ts: seq<Lexed>, p: nat, e: seq<SyntaxError>)
    requires Tok(ts, p) == ID && Tok(ts, p + 1) == SEMI
    ensures AdditiveExp(ts, PState(p, e)) == Ok(Parsed(NamedId(Text(ts, p)), PState(p + 1, e)))
  {
    IdTerm(ts, p, e);
  }

  lemma SumBeforeRelop(ts: seq<Lexed>, p: nat, e: seq<SyntaxError>, a: Tree)
    requires Tok(ts, p) == PLUS && Tok(ts, p + 1) == ID && Tok(ts, p + 2) == LT
    ensures AddLoop(ts, PState(p, e), a, Null) == Ok(Parsed(OpNode(PLUS, a, Null), PState(p + 2, e)))
  {
    TermBeforeRelop(ts, p + 1, e);
  }

  lemma SumCompared(ts: seq<Lexed>, p: nat, e: seq<SyntaxError>, a: Tree)
    requires Tok(ts, p) == PLUS && Tok(ts, p + 1) == ID && Tok(ts, p + 2) == LT
    requires Tok(ts, p + 3) == ID && Tok(ts, p + 4) == SEMI
    requires a.Node?
    ensures SimpleExp(ts, PState(p, e), a)
      == Ok(Parsed(OpNode(LT, OpNode(PLUS, a, Null), NamedId(Text(ts, p + 3))), PState(p + 4, e)))
  {
    SumBeforeRelop(ts, p, e, a);
    LastOperand(ts, p + 3, e);
  }

  /** `a + b < c ;` loses `b`: `term` gives null when its factor is
      followed by a relational operator, so the sum's right operand is
      null. */
  lemma TermDropsBeforeRelop(ts: seq<Lexed>, p: nat, e: seq<SyntaxError>)
    requires Tok(ts, p) == ID && Tok(ts, p + 1) == PLUS && Tok(ts, p + 2) == ID && Tok(ts, p + 3) == LT
    requires Tok(ts, p + 4) == ID && Tok(ts, p + 5) == SEMI
    ensures Exp(ts, PState(p, e))
      == Ok(Parsed(OpNode(LT, OpNode(PLUS, NamedId(Text(ts, p)), Null), NamedId(Text(ts, p + 4))), PState(p + 5, e)))
  {
    var a := NamedId(Text(ts, p));
    ExpOnId(ts, p, e);
    IdExpOnFollower(ts, PState(p + 1, e), a);
    SumCompared(ts, p + 1, e, a);
  }

  lemma PlainArgument(ts: seq<Lexed>, p: nat, e: seq<SyntaxError>)
    requires Tok(ts, p) == ID && (Tok(ts, p + 1) == COMMA || Tok(ts, p + 1) == RPAREN || Tok(ts, p + 1) == SEMI)
    ensures Exp(ts, PState(p, e)) == Ok(Parsed(NamedId(Text(ts, p)), PState(p + 1, e)))
  {
    ExpOnId(ts, p, e);
    IdExpOnFollower(ts, PState(p + 1, e), NamedId(Text(ts, p)));
  }

  lemma SecondArgument(ts: seq<Lexed>, p: nat, e: seq<SyntaxError>, a: Tree)
    requires Tok(ts, p) == COMMA && Tok(ts, p + 1) == ID && Tok(ts, p + 2) == RPAREN && a.Node?
    ensures ArgsLoop(ts, PState(p, e), a) == Ok(Parsed(NamedId(Text(ts, p + 1)), PState(p + 2, e)))
  {
    var b := NamedId(Text(ts, p + 1));
    PlainArgument(ts, p + 1, e);
    assert ArgsLoop(ts, PState(p + 2, e), b) == Ok(Parsed(Null, PState(p + 2, e)));
    assert Link(b, Null) == b;
  }

  lemma TwoArguments(ts: seq<Lexed>, p: nat, e: seq<SyntaxError>)
    requires Tok(ts, p) == ID && Tok(ts, p + 1) == COMMA && Tok(ts, p + 2) == ID && Tok(ts, p + 3) == RPAREN
    ensures Args(ts, PState(p, e))
      == Ok(Parsed(Plain(ExpK(ArgsK), Link(NamedId(Text(ts, p)), NamedId(Text(ts, p + 2))), Null, Null, Null),
                   PState(p + 3, e)))
  {
    PlainArgument(ts, p, e);
    SecondArgument(ts, p + 1, e, NamedId(Text(ts, p)));
  }

  lemma CallOfTwo(ts: seq<Lexed>, p: nat, e: seq<SyntaxError>, f: Tree)
    requires Tok(ts, p) == LPAREN && Tok(ts, p + 1) == ID && Tok(ts, p + 2) == COMMA
    requires Tok(ts, p + 3) == ID && Tok(ts, p + 4) == RPAREN && Tok(ts, p + 5) == SEMI
    requires WellFormed(f) && Detached(f)
    ensures var args := Plain(ExpK(ArgsK), Link(NamedId(Text(ts, p + 1)), NamedId(Text(ts, p + 3))), Null, Null, Null);
      CallExp(ts, PState(p, e), f) == Ok(Parsed(Plain(ExpK(CallK), f, args, Null, Null), PState(p + 5, e)))
  {
    TwoArguments(ts, p + 1, e);
  }

  /** `f ( a , b ) ;` is a call whose `ArgsK` child heads the chain
      `a`, `b`. */
  lemma CallChainsArguments(ts: seq<Lexed>, p: nat, e: seq<SyntaxError>)
    requires Tok(ts, p) == ID && Tok(ts, p + 1) == LPAREN && Tok(ts, p + 2) == ID && Tok(ts, p + 3) == COMMA
    requires Tok(ts, p + 4) == ID && Tok(ts, p + 5) == RPAREN && Tok(ts, p + 6) == SEMI
    ensures Exp(ts, PState(p, e))
      == Ok(Parsed(Plain(ExpK(CallK), NamedId(Text(ts, p)),
                         Plain(ExpK(ArgsK), Link(NamedId(Text(ts, p + 2)), NamedId(Text(ts, p + 4))), Null, Null, Null),
                         Null, Null),
                   PState(p + 6, e)))
  {
    var f := NamedId(Text(ts, p));
    ExpOnId(ts, p, e);
    IdExpOnCall(ts, PState(p + 1, e), f);
    CallOfTwo(ts, p + 1, e, f);
  }

  lemma ParenOfStray(ts: seq<Lexed>, p: nat, e: seq<SyntaxError>)
    requires Tok(ts, p) == LPAREN && Tok(ts, p + 1) == RBRACKET && Tok(ts, p + 2) == RPAREN
    ensures ParenExp(ts, PState(p, e)) == Ok(Parsed(Null, PState(p + 3, e + [Unexpected(RBRACKET, p + 1)])))
  {
    assert Exp(ts, PState(p + 1, e)) == Ok(Parsed(Null, PState(p + 2, e + [Unexpected(RBRACKET, p + 1)])));
  }

  lemma NullArgument(ts: seq<Lexed>, p: nat, e: seq<SyntaxError>)
    requires Tok(ts, p) == LPAREN && Tok(ts, p + 1) == RBRACKET && Tok(ts, p + 2) == RPAREN
    ensures Exp(ts, PState(p, e)) == Ok(Parsed(Null, PState(p + 3, e + [Unexpected(RBRACKET, p + 1)])))
  {
    ParenOfStray(ts, p, e);
  }

  lemma NullFirstArgument(ts: seq<Lexed>, p: nat, e: seq<SyntaxError>)
    requires Tok(ts, p) == LPAREN && Tok(ts, p + 1) == RBRACKET && Tok(ts, p + 2) == RPAREN && Tok(ts, p + 3) == COMMA
    ensures Args(ts, PState(p, e)) == NullDeref
  {
    NullArgument(ts, p, e);
  }

  /** `f ( ( ] ) , b )` writes through a null pointer: the first argument
      parses to null, and `args` then stores the second one as its
      sibling. */
  lemma ArgsNullFaults(ts: seq<Lexed>, p: nat, e: seq<SyntaxError>)
    requires Tok(ts, p) == ID && Tok(ts, p + 1) == LPAREN && Tok(ts, p + 2) == LPAREN && Tok(ts, p + 3) == RBRACKET
    requires Tok(ts, p + 4) == RPAREN && Tok(ts, p + 5) == COMMA && Tok(ts, p + 6) == ID && Tok(ts, p + 7) == RPAREN
    ensures Exp(ts, PState(p, e)) == NullDeref
  {
    var f := NamedId(Text(ts, p));
    ExpOnId(ts, p, e);
    IdExpOnCall(ts, PState(p + 1, e), f);
    NullFirstArgument(ts, p + 2, e);
  }

  // ---------------------------------------------------------------------
  // Statements

  lemma ReturnNothing(ts: seq<Lexed>, p: nat, e: seq<SyntaxError>)
    requires Tok(ts, p) == RETURN && Tok(ts, p + 1) == SEMI
    ensures Return(ts, PState(p, e)) == Ok(Parsed(ReturnNode(), PState(p + 2, e)))
  {
  }

  lemma BareReturn(ts: seq<Lexed>, p: nat, e: seq<SyntaxError>)
    requires Tok(ts, p) == RETURN && Tok(ts, p + 1) == SEMI
    ensures Stmt(ts, PState(p, e)) == Ok(Parsed(ReturnNode(), PState(p + 2, e)))
  {
    ReturnNothing(ts, p, e);
  }

  /** The head `kw ( x )` of a selection or iteration. */
  lemma NameCondition(ts: seq<Lexed>, p: nat, e: seq<SyntaxError>, kw: TokenType)
    requires kw != ENDFILE && Tok(ts, p) == kw && Tok(ts, p + 1) == LPAREN && Tok(ts, p + 2) == ID && Tok(ts, p + 3) == RPAREN
    ensures Condition(ts, PState(p, e), kw) == Ok(Parsed(NamedId(Text(ts, p + 2)), PState(p + 4, e)))
  {
    PlainArgument(ts, p + 2, e);
  }

  /** `if ( x )` followed by the given branches, once they are known. */
  lemma IfOnName(ts: seq<Lexed>, p: nat, e: seq<SyntaxError>, r: Res)
    requires Tok(ts, p) == IF && Tok(ts, p + 1) == LPAREN && Tok(ts, p + 2) == ID && Tok(ts, p + 3) == RPAREN
    requires IfBranches(ts, PState(p + 4, e), NamedId(Text(ts, p + 2))) == r
    ensures Stmt(ts, PState(p, e)) == r
  {
    NameCondition(ts, p, e, IF);
  }

  lemma ReturnElseReturn(ts: seq<Lexed>, p: nat, e: seq<SyntaxError>, c: Tree)
    requires Tok(ts, p) == RETURN && Tok(ts, p + 1) == SEMI && Tok(ts, p + 2) == ELSE && Tok(ts, p + 3) == RETURN
    requires Tok(ts, p + 4) == SEMI
    requires WellFormed(c) && Detached(c)
    ensures IfBranches(ts, PState(p, e), c) == Ok(Parsed(Plain(StmtK(IfK), c, ReturnNode(), ReturnNode(), Null), PState(p + 5, e)))
  {
    BareReturn(ts, p, e);
    BareReturn(ts, p + 3, e);
  }

  lemma InnerIfElse(ts: seq<Lexed>, p: nat, e: seq<SyntaxError>)
    requires Tok(ts, p) == IF && Tok(ts, p + 1) == LPAREN && Tok(ts, p + 2) == ID && Tok(ts, p + 3) == RPAREN
    requires Tok(ts, p + 4) == RETURN && Tok(ts, p + 5) == SEMI && Tok(ts, p + 6) == ELSE && Tok(ts, p + 7) == RETURN
    requires Tok(ts, p + 8) == SEMI
    ensures Stmt(ts, PState(p, e))
      == Ok(Parsed(Plain(StmtK(IfK), NamedId(Text(ts, p + 2)), ReturnNode(), ReturnNode(), Null), PState(p + 9, e)))
  {
    var x := NamedId(Text(ts, p + 2));
    ReturnElseReturn(ts, p + 4, e, x);
    IfOnName(ts, p, e, Ok(Parsed(Plain(StmtK(IfK), x, ReturnNode(), ReturnNode(), Null), PState(p + 9, e))));
  }

  lemma ThenOnly(ts: seq<Lexed>, p: nat, e: seq<SyntaxError>, c: Tree, th: Parsed)
    requires Stmt(ts, PState(p, e)) == Ok(th) && Tok(ts, th.st.pos) != ELSE
    requires WellFormed(c) && Detached(c)
    ensures IfBranches(ts, PState(p, e), c) == Ok(Parsed(Plain(StmtK(IfK), c, th.tree, Null, Null), th.st))
  {
  }

  /** `if ( x ) if ( y ) return ; else return ;` gives the `else` to the
      inner `if`. */
  lemma DanglingElse(ts: seq<Lexed>, p: nat, e: seq<SyntaxError>)
    requires Tok(ts, p) == IF && Tok(ts, p + 1) == LPAREN && Tok(ts, p + 2) == ID && Tok(ts, p + 3) == RPAREN
    requires Tok(ts, p + 4) == IF && Tok(ts, p + 5) == LPAREN && Tok(ts, p + 6) == ID && Tok(ts, p + 7) == RPAREN
    requires Tok(ts, p + 8) == RETURN && Tok(ts, p + 9) == SEMI && Tok(ts, p + 10) == ELSE && Tok(ts, p + 11) == RETURN
    requires Tok(ts, p + 12) == SEMI
    requires Tok(ts, p + 13) != ELSE
    ensures var inner := Plain(StmtK(IfK), NamedId(Text(ts, p + 6)), ReturnNode(), ReturnNode(), Null);
      Stmt(ts, PState(p, e)) == Ok(Parsed(Plain(StmtK(IfK), NamedId(Text(ts, p + 2)), inner, Null, Null), PState(p + 13, e)))
  {
    var x := NamedId(Text(ts, p + 2));
    var inner := Plain(StmtK(IfK), NamedId(Text(ts, p + 6)), ReturnNode(), ReturnNode(), Null);
    InnerIfElse(ts, p + 4, e);
    ThenOnly(ts, p + 4, e, x, Parsed(inner, PState(p + 13, e)));
    IfOnName(ts, p, e, Ok(Parsed(Plain(StmtK(IfK), x, inner, Null, Null), PState(p + 13, e))));
  }

  lemma LocalVar(ts: seq<Lexed>, p: nat, e: seq<SyntaxError>)
    requires Tok(ts, p) == INT && Tok(ts, p + 1) == ID && Tok(ts, p + 2) == SEMI
    ensures VarDecl(ts, PState(p, e)) == Parsed(VarDeclNode(IntType(), NamedId(Text(ts, p + 1))), PState(p + 3, e))
  {
    assert TypeSpecifier(ts, PState(p, e)) == Parsed(IntType(), PState(p + 1, e));
  }

  lemma LocalDeclaration(ts: seq<Lexed>, p: nat, e: seq<SyntaxError>)
    requires Tok(ts, p) == INT && Tok(ts, p + 1) == ID && Tok(ts, p + 2) == SEMI
    ensures CompoundItem(ts, PState(p, e)) == Ok(Parsed(VarDeclNode(IntType(), NamedId(Text(ts, p + 1))), PState(p + 3, e)))
  {
    LocalVar(ts, p, e);
  }

  lemma NameStmt(ts: seq<Lexed>, p: nat, e: seq<SyntaxError>)
    requires Tok(ts, p) == ID && Tok(ts, p + 1) == SEMI
    ensures Stmt(ts, PState(p, e)) == Ok(Parsed(NamedId(Text(ts, p)), PState(p + 2, e)))
  {
    PlainArgument(ts, p, e);
    ExpStmtOnExp(ts, p, e, NamedId(Text(ts, p)), PState(p + 1, e));
  }

  lemma ExpressionItem(ts: seq<Lexed>, p: nat, e: seq<SyntaxError>)
    requires Tok(ts, p) == ID && Tok(ts, p + 1) == SEMI
    ensures CompoundItem(ts, PState(p, e)) == Ok(Parsed(NamedId(Text(ts, p)), PState(p + 2, e)))
  {
    NameStmt(ts, p, e);
  }

  /** `{ x ; int y ; }` is accepted although the declaration follows a
      statement; the block's chain is `x` then the declaration. */
  lemma BlockInterleaves(ts: seq<Lexed>, p: nat, e: seq<SyntaxError>)
    requires Tok(ts, p) == LBRACE && Tok(ts, p + 1) == ID && Tok(ts, p + 2) == SEMI && Tok(ts, p + 3) == INT
    requires Tok(ts, p + 4) == ID && Tok(ts, p + 5) == SEMI && Tok(ts, p + 6) == RBRACE
    ensures var decl := VarDeclNode(IntType(), NamedId(Text(ts, p + 4)));
      Compound(ts, PState(p, e))
        == Ok(Parsed(Plain(StmtK(CompK), Link(NamedId(Text(ts, p + 1)), decl), Null, Null, Null), PState(p + 7, e)))
  {
    var x := NamedId(Text(ts, p + 1));
    var decl := VarDeclNode(IntType(), NamedId(Text(ts, p + 4)));
    var close := Parsed(Null, PState(p + 6, e));
    assert CompoundLoop(ts, PState(p + 6, e)) == Ok(close);
    LocalDeclaration(ts, p + 3, e);
    CompoundLoopStep(ts, p + 3, e, Parsed(decl, PState(p + 6, e)), close);
    assert Link(decl, Null) == decl;
    ExpressionItem(ts, p + 1, e);
    CompoundLoopStep(ts, p + 1, e, Parsed(x, PState(p + 3, e)), Parsed(decl, PState(p + 6, e)));
  }

  // ---------------------------------------------------------------------
  // Declarations

  lemma ArrayTailLeavesNumber(ts: seq<Lexed>, p: nat, e: seq<SyntaxError>, ty: Tree, id: Tree)
    requires Tok(ts, p) == LBRACKET && Tok(ts, p + 1) == NUM
    ensures var arr := Plain(ExpK(ArrayDeclK), id, ConstAt(ts, p + 1), Null, Null);
      ArrayDeclTail(ts, PState(p, e), ty, id)
        == Parsed(VarDeclNode(ty, arr), PState(p + 1, e + [Unexpected(NUM, p + 1), Unexpected(NUM, p + 1)]))
  {
    var u := Unexpected(NUM, p + 1);
    assert e + [u] + [u] == e + [u, u];
  }

  /** `int a [ 10 ] ;` never consumes the number: `]` and `;` are both
      matched against it, and parsing resumes at the number. */
  lemma ArrayDeclLeavesNumber(ts: seq<Lexed>, p: nat, e: seq<SyntaxError>)
    requires Tok(ts, p) == INT && Tok(ts, p + 1) == ID && Tok(ts, p + 2) == LBRACKET && Tok(ts, p + 3) == NUM
    requires Tok(ts, p + 4) == RBRACKET && Tok(ts, p + 5) == SEMI
    ensures var arr := Plain(ExpK(ArrayDeclK), NamedId(Text(ts, p + 1)), ConstAt(ts, p + 3), Null, Null);
      Declaration(ts, PState(p, e))
        == Ok(Parsed(VarDeclNode(IntType(), arr), PState(p + 3, e + [Unexpected(NUM, p + 3), Unexpected(NUM, p + 3)])))
  {
    DeclarationOnName(ts, p, e);
    ArrayTailLeavesNumber(ts, p + 2, e, IntType(), NamedId(Text(ts, p + 1)));
  }

  lemma VoidParam(ts: seq<Lexed>, p: nat, e: seq<SyntaxError>)
    requires Tok(ts, p) == VOID && Tok(ts, p + 1) == RPAREN
    ensures ParamList1(ts, PState(p, e)) == Parsed(Plain(StmtK(ParamK), VoidType(), Null, Null, Null), PState(p + 1, e))
  {
  }

  /** `void` alone is a parameter list of one `void` parameter. */
  lemma VoidParams(ts: seq<Lexed>, p: nat, e: seq<SyntaxError>)
    requires Tok(ts, p) == VOID && Tok(ts, p + 1) == RPAREN
    ensures ParamList(ts, PState(p, e))
      == Parsed(Plain(StmtK(ParamsK), Plain(StmtK(ParamK), VoidType(), Null, Null, Null), Null, Null, Null), PState(p + 1, e))
  {
    VoidParam(ts, p, e);
  }

  lemma EmptyBody(ts: seq<Lexed>, p: nat, e: seq<SyntaxError>)
    requires Tok(ts, p) == LBRACE && Tok(ts, p + 1) == RBRACE
    ensures Compound(ts, PState(p, e)) == Ok(Parsed(Plain(StmtK(CompK), Null, Null, Null, Null), PState(p + 2, e)))
  {
    assert CompoundLoop(ts, PState(p + 1, e)) == Ok(Parsed(Null, PState(p + 1, e)));
  }

  lemma VoidFunction(ts: seq<Lexed>, p: nat, e: seq<SyntaxError>, id: Tree)
    requires Tok(ts, p) == LPAREN && Tok(ts, p + 1) == VOID
    requires Tok(ts, p + 2) == RPAREN && Tok(ts, p + 3) == LBRACE && Tok(ts, p + 4) == RBRACE
    requires WellFormed(id)
    ensures var params := Plain(StmtK(ParamsK), Plain(StmtK(ParamK), VoidType(), Null, Null, Null), Null, Null, Null);
      var body := Plain(StmtK(CompK), Null, Null, Null, Null);
      FunDecl(ts, PState(p, e), IntType(), id)
        == Ok(Parsed(Plain(StmtK(FuncK), IntType(), id, params, body), PState(p + 5, e)))
  {
    VoidParams(ts, p + 1, e);
    EmptyBody(ts, p + 3, e);
  }

  /** `int f ( void ) { }` is a `FuncK` node of the type, the name, the
      parameter list and the body. */
  lemma FunctionDeclaration(ts: seq<Lexed>, p: nat, e: seq<SyntaxError>)
    requires Tok(ts, p) == INT && Tok(ts, p + 1) == ID && Tok(ts, p + 2) == LPAREN && Tok(ts, p + 3) == VOID
    requires Tok(ts, p + 4) == RPAREN && Tok(ts, p + 5) == LBRACE && Tok(ts, p + 6) == RBRACE
    ensures var params := Plain(StmtK(ParamsK), Plain(StmtK(ParamK), VoidType(), Null, Null, Null), Null, Null, Null);
      var body := Plain(StmtK(CompK), Null, Null, Null, Null);
      Declaration(ts, PState(p, e))
        == Ok(Parsed(Plain(StmtK(FuncK), IntType(), NamedId(Text(ts, p + 1)), params, body), PState(p + 7, e)))
  {
    DeclarationOnName(ts, p, e);
    VoidFunction(ts, p + 2, e, NamedId(Text(ts, p + 1)));
  }

  lemma UnclosedBlock(ts: seq<Lexed>, p: nat, e: seq<SyntaxError>)
    requires Tok(ts, p) == LBRACE && Tok(ts, p + 1) == ENDFILE
    ensures Compound(ts, PState(p, e)) == Diverges
  {
    assert CompoundLoop(ts, PState(p + 1, e)) == Diverges;
  }

  lemma UnclosedFunction(ts: seq<Lexed>, p: nat, e: seq<SyntaxError>, id: Tree)
    requires Tok(ts, p) == LPAREN && Tok(ts, p + 1) == VOID
    requires Tok(ts, p + 2) == RPAREN && Tok(ts, p + 3) == LBRACE && Tok(ts, p + 4) == ENDFILE
    requires WellFormed(id)
    ensures FunDecl(ts, PState(p, e), IntType(), id) == Diverges
  {
    VoidParams(ts, p + 1, e);
    UnclosedBlock(ts, p + 3, e);
  }

  /** A block still open at end of input never returns. */
  lemma UnclosedBodyDiverges(ts: seq<Lexed>, p: nat, e: seq<SyntaxError>)
    requires Tok(ts, p) == INT && Tok(ts, p + 1) == ID && Tok(ts, p + 2) == LPAREN && Tok(ts, p + 3) == VOID
    requires Tok(ts, p + 4) == RPAREN && Tok(ts, p + 5) == LBRACE && Tok(ts, p + 6) == ENDFILE
    ensures Declaration(ts, PState(p, e)) == Diverges
  {
    DeclarationOnName(ts, p, e);
    UnclosedFunction(ts, p + 2, e, NamedId(Text(ts, p + 1)));
  }

  lemma SecondParam(ts: seq<Lexed>, p: nat, e: seq<SyntaxError>)
    requires Tok(ts, p) == INT && Tok(ts, p + 1) == ID && Tok(ts, p + 2) == RPAREN
    ensures Param(ts, PState(p, e)) == Parsed(Plain(StmtK(ParamK), IntType(), NamedId(Text(ts, p + 1)), Null, Null), PState(p + 2, e))
  {
    assert TypeSpecifier(ts, PState(p, e)) == Parsed(IntType(), PState(p + 1, e));
  }

  lemma ParamLoopKeepsLast(ts: seq<Lexed>, p: nat, e: seq<SyntaxError>, first: Tree)
    requires Tok(ts, p) == COMMA && Tok(ts, p + 1) == INT && Tok(ts, p + 2) == ID && Tok(ts, p + 3) == RPAREN
    requires first.Node? && first.kind == StmtK(ParamK)
    ensures var last := Plain(StmtK(ParamK), IntType(), NamedId(Text(ts, p + 2)), Null, Null);
      ParamLoop(ts, PState(p, e), first) == Parsed(last, PState(p + 3, e))
  {
    SecondParam(ts, p + 1, e);
  }

  lemma IntParams(ts: seq<Lexed>, p: nat, e: seq<SyntaxError>)
    requires Tok(ts, p) == INT && Tok(ts, p + 1) == ID && Tok(ts, p + 2) == COMMA && Tok(ts, p + 3) == INT
    requires Tok(ts, p + 4) == ID && Tok(ts, p + 5) == RPAREN
    ensures var last := Plain(StmtK(ParamK), IntType(), NamedId(Text(ts, p + 4)), Null, Null);
      ParamList2(ts, PState(p, e)) == Parsed(last, PState(p + 5, e))
  {
    var first := Plain(StmtK(ParamK), IntType(), NamedId(Text(ts, p + 1)), Null, Null);
    assert OptBrackets(ts, PState(p + 2, e), first) == Parsed(first, PState(p + 2, e));
    ParamLoopKeepsLast(ts, p + 2, e, first);
  }

  /** `int a , int b` gives a parameter list whose child is the parameter
      `b`: the list keeps the last parameter instead of the first. */
  lemma ParamListKeepsLast(ts: seq<Lexed>, p: nat, e: seq<SyntaxError>)
    requires Tok(ts, p) == INT && Tok(ts, p + 1) == ID && Tok(ts, p + 2) == COMMA && Tok(ts, p + 3) == INT
    requires Tok(ts, p + 4) == ID && Tok(ts, p + 5) == RPAREN
    ensures var last := Plain(StmtK(ParamK), IntType(), NamedId(Text(ts, p + 4)), Null, Null);
      ParamList(ts, PState(p, e)) == Parsed(Plain(StmtK(ParamsK), last, Null, Null, Null), PState(p + 5, e))
  {
    IntParams(ts, p, e);
  }

  // ---------------------------------------------------------------------
  // Programs

  lemma NullDeclaration(ts: seq<Lexed>, p: nat, e: seq<SyntaxError>)
    requires Tok(ts, p) == INT && Tok(ts, p + 1) == ID && Tok(ts, p + 2) == ID
    ensures Declaration(ts, PState(p, e)) == Ok(Parsed(Null, PState(p + 3, e + [Unexpected(ID, p + 2)])))
  {
    DeclarationOnName(ts, p, e);
  }

  lemma VariableDeclaration(ts: seq<Lexed>, p: nat, e: seq<SyntaxError>)
    requires Tok(ts, p) == INT && Tok(ts, p + 1) == ID && Tok(ts, p + 2) == SEMI
    ensures Declaration(ts, PState(p, e)) == Ok(Parsed(VarDeclNode(IntType(), NamedId(Text(ts, p + 1))), PState(p + 3, e)))
  {
    DeclarationOnName(ts, p, e);
  }

  lemma SecondDeclarationFaults(ts: seq<Lexed>, p: nat, e: seq<SyntaxError>)
    requires Tok(ts, p) == INT && Tok(ts, p + 1) == ID && Tok(ts, p + 2) == SEMI
    ensures ProgramLoop(ts, PState(p, e), true) == NullDeref
  {
    VariableDeclaration(ts, p, e);
  }

  /** `int x y int z ;` writes through a null pointer: the first
      declaration is null, so `program` has no tail to link the second to. */
  lemma ProgramFirstNullFaults(ts: seq<Lexed>, p: nat, e: seq<SyntaxError>)
    requires Tok(ts, p) == INT && Tok(ts, p + 1) == ID && Tok(ts, p + 2) == ID && Tok(ts, p + 3) == INT
    requires Tok(ts, p + 4) == ID && Tok(ts, p + 5) == SEMI
    ensures Program(ts, PState(p, e)) == NullDeref
  {
    NullDeclaration(ts, p, e);
    SecondDeclarationFaults(ts, p + 3, e + [Unexpected(ID, p + 2)]);
  }

  lemma EmptyDeclaration()
    ensures var u := Unexpected(ENDFILE, 0);
      Declaration([], PState(0, [])) == Ok(Parsed(Null, PState(0, [u, u, u])))
  {
    var u := Unexpected(ENDFILE, 0);
    assert TypeSpecifier([], PState(0, [])) == Parsed(Null, PState(0, [u]));
    assert Match([], PState(0, [u]), ID) == PState(0, [u, u]);
    assert [u, u] + [u] == [u, u, u];
    assert DeclarationTail([], PState(0, [u, u]), Null, Leaf(ExpK(IdK))) == Ok(Parsed(Null, PState(0, [u, u, u])));
  }

  /** An empty token stream is a null program with three reports: the
      first declaration is attempted and fails at the type, the name and
      the tail. */
  lemma EmptyProgram()
    ensures ParseTokens([]) == Ok(Parsed(Null, PState(0, [Unexpected(ENDFILE, 0), Unexpected(ENDFILE, 0), Unexpected(ENDFILE, 0)])))
  {
    EmptyDeclaration();
  }

  lemma LastDeclaration(ts: seq<Lexed>, p: nat, e: seq<SyntaxError>)
    requires Tok(ts, p) == INT && Tok(ts, p + 1) == ID && Tok(ts, p + 2) == SEMI && Tok(ts, p + 3) == ENDFILE
    ensures var y := VarDeclNode(IntType(), NamedId(Text(ts, p + 1)));
      ProgramLoop(ts, PState(p, e), false) == Ok(Parsed(y, PState(p + 3, e)))
  {
    var y := VarDeclNode(IntType(), NamedId(Text(ts, p + 1)));
    VariableDeclaration(ts, p, e);
    assert ProgramLoop(ts, PState(p + 3, e), false) == Ok(Parsed(Null, PState(p + 3, e)));
    assert Link(y, Null) == y;
  }

  /** `int x ; int y ;` is the chain of the two declarations. */
  lemma TwoDeclarations(ts: seq<Lexed>)
    requires Tok(ts, 0) == INT && Tok(ts, 1) == ID && Tok(ts, 2) == SEMI && Tok(ts, 3) == INT
    requires Tok(ts, 4) == ID && Tok(ts, 5) == SEMI && Tok(ts, 6) == ENDFILE
    ensures var x := VarDeclNode(IntType(), NamedId(Text(ts, 1)));
      var y := VarDeclNode(IntType(), NamedId(Text(ts, 4)));
      ParseTokens(ts) == Ok(Parsed(Link(x, y), PState(6, [])))
  {
    VariableDeclaration(ts, 0, []);
    LastDeclaration(ts, 3, []);
  }
}
