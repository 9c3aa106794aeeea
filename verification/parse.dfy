/** The recursive-descent parser of the C-minus front end, as mutually
    recursive functions over the token stream the scanner produces.

    The scanner is never influenced by the parser, so the stream can be
    computed in advance; the parser's single token of lookahead is then an
    index into it. Every procedure reads the lexeme of the current token
    before it advances, so reading `Text` at the index is what the source
    reads from the lexeme buffer. Diagnostics are kept as a list of the
    offending tokens. */
module Parse {
  import opened Globals

  // ---------------------------------------------------------------------
  // Parser state and outcomes

  /** A reported syntax error: the offending token and its index, or the
      check at the end of `parse` that input remains. */
  datatype SyntaxError = Unexpected(tok: TokenType, at: nat) | EndsBeforeFile

  /** The index of the current token and the diagnostics reported so far. */
  datatype PState = PState(pos: nat, errs: seq<SyntaxError>)

  /** A procedure's result tree and the state after it. */
  datatype Parsed = Parsed(tree: Tree, st: PState)

  /** How a procedure ends: it returns, it never returns (the block loop at
      end of input), or it writes through a null pointer. */
  datatype Res = Ok(value: Parsed) | Diverges | NullDeref {
    predicate IsFailure() {
      !Ok?
    }

    function PropagateFailure(): Res
      requires !Ok?
    {
      this
    }

    function Extract(): Parsed
      requires Ok?
    {
      value
    }
  }

  /** The current token: past the end of the stream it is `ENDFILE`. */
  function Tok(ts: seq<Lexed>, p: nat): TokenType {
    if p < |ts| then ts[p].kind else ENDFILE
  }

  /** The lexeme buffer while token `p` is current (empty at end of input). */
  function Text(ts: seq<Lexed>, p: nat): string {
    if p < |ts| then ts[p].text else ""
  }

  /** `getToken` from the parser's side: the next token, except that
      `ENDFILE` repeats forever. */
  function Advance(ts: seq<Lexed>, p: nat): (q: nat)
    ensures Tok(ts, p) == ENDFILE ==> q == p
    ensures Tok(ts, p) != ENDFILE ==> q == p + 1 && p < |ts|
  {
    if Tok(ts, p) == ENDFILE then p else p + 1
  }

  /** Tokens left before the end of the stream: the termination measure. */
  function Remaining(ts: seq<Lexed>, p: nat): nat {
    if p < |ts| then |ts| - p else 0
  }

  /** `b` is a state reachable from `a`: no token is un-read and the
      number of diagnostics never shrinks. */
  predicate Later(a: PState, b: PState) {
    a.pos <= b.pos && |a.errs| <= |b.errs|
  }

  function Report(ts: seq<Lexed>, st: PState): seq<SyntaxError> {
    st.errs + [Unexpected(Tok(ts, st.pos), st.pos)]
  }

  /** `match(expected)`: consumes the current token exactly when it is the
      expected one; otherwise reports it and leaves it current. */
  function Match(ts: seq<Lexed>, st: PState, expected: TokenType): (r: PState)
    ensures Later(st, r)
    ensures st.pos < r.pos <==> Tok(ts, st.pos) == expected && expected != ENDFILE
    ensures r.pos <= st.pos + 1
    ensures Tok(ts, st.pos) == expected ==> r.errs == st.errs
    ensures Tok(ts, st.pos) != expected ==> r.pos == st.pos && r.errs == st.errs + [Unexpected(Tok(ts, st.pos), st.pos)]
  {
    if Tok(ts, st.pos) == expected then PState(Advance(ts, st.pos), st.errs)
    else PState(st.pos, Report(ts, st))
  }

  /** The `default:` recovery: report the current token and skip it. */
  function Skip(ts: seq<Lexed>, st: PState): (r: PState)
    ensures Later(st, r)
    ensures Tok(ts, st.pos) != ENDFILE ==> r.pos == st.pos + 1
    ensures r.errs == st.errs + [Unexpected(Tok(ts, st.pos), st.pos)]
  {
    PState(Advance(ts, st.pos), Report(ts, st))
  }

  // ---------------------------------------------------------------------
  // Node construction

  /** An identifier node named by the current lexeme. */
  function NamedId(name: string): (t: Tree)
    ensures t.Node? && t.kind == ExpK(IdK) && t.attr == Name(name)
    ensures WellFormed(t) && Detached(t)
  {
    Node(ExpK(IdK), Null, Null, Null, Null, Null, Name(name))
  }

  /** An identifier node whose name is set only when the current token is
      an identifier. */
  function IdAt(ts: seq<Lexed>, p: nat): (t: Tree)
    ensures t.Node? && t.kind == ExpK(IdK) && WellFormed(t) && Detached(t)
  {
    if Tok(ts, p) == ID then NamedId(Text(ts, p)) else Leaf(ExpK(IdK))
  }

  /** The marker of an array parameter: an identifier with an empty name. */
  function EmptyName(): (t: Tree)
    ensures t.Node? && t.attr == Name("") && WellFormed(t) && Detached(t)
  {
    NamedId("")
  }

  /** `atoi` on the lexeme: leading C white space, an optional sign, then
      the longest run of digits (overflow is not modelled). */
  function Atoi(s: string): int {
    var i := SkipSpace(s, 0);
    if i < |s| && s[i] == '-' then 0 - DigitsValue(LeadingDigits(s[i + 1..]))
    else if i < |s| && s[i] == '+' then DigitsValue(LeadingDigits(s[i + 1..]))
    else DigitsValue(LeadingDigits(s[i..]))
  }

  function SkipSpace(s: string, i: nat): (j: nat)
    requires i <= |s|
    ensures i <= j <= |s|
    decreases |s| - i
  {
    if i < |s| && IsCSpace(s[i]) then SkipSpace(s, i + 1) else i
  }

  /** `isspace` in the C locale: space, tab, newline, vertical tab, form
      feed and carriage return. */
  predicate IsCSpace(c: char) {
    c == ' ' || c == '\t' || c == '\n' || c == 11 as char || c == 12 as char || c == '\r'
  }

  predicate AllDigits(s: string) {
    forall k :: 0 <= k < |s| ==> '0' <= s[k] <= '9'
  }

  function LeadingDigits(s: string): (d: string)
    ensures d <= s && AllDigits(d)
    ensures |d| < |s| ==> !('0' <= s[|d|] <= '9')
  {
    if |s| > 0 && '0' <= s[0] <= '9' then [s[0]] + LeadingDigits(s[1..]) else []
  }

  /** The decimal value of a digit string. */
  function DigitsValue(d: string): (v: nat)
    requires AllDigits(d)
  {
    if |d| == 0 then 0 else DigitsValue(d[..|d| - 1]) * 10 + (d[|d| - 1] as int - '0' as int)
  }

  /** A constant node whose value is set only when the current token is a
      number. */
  function ConstAt(ts: seq<Lexed>, p: nat): (t: Tree)
    ensures t.Node? && t.kind == ExpK(ConstK) && WellFormed(t) && Detached(t)
    ensures Tok(ts, p) == NUM <==> t.attr == Val(Atoi(Text(ts, p)))
  {
    var v := if Tok(ts, p) == NUM then Val(Atoi(Text(ts, p))) else NoAttr;
    Node(ExpK(ConstK), Null, Null, Null, Null, Null, v)
  }

  /** An operator node over two operands. */
  function OpNode(op: TokenType, left: Tree, right: Tree): (t: Tree)
    requires IsMulop(op) || IsAddop(op) || IsRelop(op)
    ensures t.Node? && t.kind == ExpK(OpK) && t.attr == Op(op) && t.child0 == left && t.child1 == right
    ensures Detached(t)
    ensures WellFormed(left) && WellFormed(right) ==> WellFormed(t)
  {
    Node(ExpK(OpK), left, right, Null, Null, Null, Op(op))
  }

  /** A node with no attribute and up to four children. */
  function Plain(k: NodeKind, c0: Tree, c1: Tree, c2: Tree, c3: Tree): (t: Tree)
    requires k != ExpK(OpK)
    ensures t.Node? && t.kind == k && t.child0 == c0 && t.child1 == c1 && t.child2 == c2 && t.child3 == c3
    ensures t.attr == NoAttr && Detached(t)
    ensures WellFormed(c0) && WellFormed(c1) && WellFormed(c2) && WellFormed(c3) ==> WellFormed(t)
  {
    Node(k, c0, c1, c2, c3, Null, NoAttr)
  }

  /** A freshly allocated node of kind `k`. */
  function Leaf(k: NodeKind): (t: Tree)
    requires k != ExpK(OpK)
    ensures t == Plain(k, Null, Null, Null, Null) && t == NewNode(k)
  {
    Plain(k, Null, Null, Null, Null)
  }

  function VarDeclNode(ty: Tree, id: Tree): (t: Tree)
    ensures t == Plain(StmtK(VarDeclK), ty, id, Null, Null)
  {
    Plain(StmtK(VarDeclK), ty, id, Null, Null)
  }

  /** Puts a procedure's result in front of the chain parsed after it;
      a null result adds nothing. */
  function Push(t: Tree, rest: Tree): (r: Tree)
    ensures t.Null? ==> r == rest
    ensures t.Node? ==> r == Link(t, rest)
    ensures WellFormed(t) && WellFormed(rest) ==> WellFormed(r)
  {
    if t.Null? then rest else Link(t, rest)
  }

  /** Followers after which an identifier (or array element) in `exp`
      feeds `simple_exp`, and after which `factor` returns a plain
      identifier. */
  predicate ExpFollower(t: TokenType) {
    IsMulop(t) || IsAddop(t) || IsRelop(t) || t == SEMI || t == RPAREN || t == COMMA
  }

  /** Followers after which the identifier branch of `expression` does
      not give null. */
  predicate IdFollower(t: TokenType) {
    t == LBRACKET || t == LPAREN || t == ASSIGN || ExpFollower(t)
  }

  // ---------------------------------------------------------------------
  // Declarations

  /** `type_specifier`: an `IntK` or `VoidK` node for `int` or `void`;
      anything else is reported and skipped, giving null. */
  function TypeSpecifier(ts: seq<Lexed>, st: PState): (r: Parsed)
    ensures Later(st, r.st)
    ensures Tok(ts, st.pos) != ENDFILE ==> r.st.pos == st.pos + 1
    ensures r.tree.Node? <==> Tok(ts, st.pos) == INT || Tok(ts, st.pos) == VOID
    ensures r.tree.Node? ==> r.st.errs == st.errs
    ensures r.tree.Null? ==> r.st.errs == st.errs + [Unexpected(Tok(ts, st.pos), st.pos)]
    ensures WellFormed(r.tree) && Detached(r.tree)
  {
    var t := Tok(ts, st.pos);
    if t == INT then Parsed(Leaf(ExpK(IntK)), Match(ts, st, INT))
    else if t == VOID then Parsed(Leaf(ExpK(VoidK)), Match(ts, st, VOID))
    else Parsed(Null, Skip(ts, st))
  }

  /** The `[` branch shared by `declaration'` and `var_decl'`: a `VarDeclK`
      whose second child is an `ArrayDeclK` of the name and a constant.
      The number is read but never consumed, so the `]` and `;` that
      follow are matched against it. */
  function ArrayDeclTail(ts: seq<Lexed>, st: PState, ty: Tree, id: Tree): (r: Parsed)
    requires Tok(ts, st.pos) == LBRACKET
    ensures Later(st, r.st) && st.pos < r.st.pos
    ensures r.tree.Node? && r.tree.kind == StmtK(VarDeclK) && r.tree.child0 == ty
    ensures r.tree.child1.Node? && r.tree.child1.kind == ExpK(ArrayDeclK) && r.tree.child1.child0 == id
    ensures r.tree.child1.child1 == ConstAt(ts, st.pos + 1)
    ensures Tok(ts, st.pos + 1) == NUM ==>
      r.st == PState(st.pos + 1, st.errs + [Unexpected(NUM, st.pos + 1), Unexpected(NUM, st.pos + 1)])
    ensures Tok(ts, st.pos + 1) == RBRACKET && Tok(ts, st.pos + 2) == SEMI ==> r.st == PState(st.pos + 3, st.errs)
    ensures WellFormed(ty) && WellFormed(id) ==> WellFormed(r.tree)
    ensures Detached(r.tree)
  {
    var st1 := Match(ts, st, LBRACKET);
    var arr := Plain(ExpK(ArrayDeclK), id, ConstAt(ts, st1.pos), Null, Null);
    var st2 := Match(ts, st1, RBRACKET);
    var st3 := Match(ts, st2, SEMI);
    Parsed(VarDeclNode(ty, arr), st3)
  }

  /** `declaration`: type, name, then `declaration'`. */
  function Declaration(ts: seq<Lexed>, st: PState): (r: Res)
    ensures r.Ok? ==> Later(st, r.value.st) && WellFormed(r.value.tree) && Detached(r.value.tree)
    ensures r.Ok? ==> r.value.tree.Null? || IsDecl(r.value.tree)
    ensures r.Ok? && Tok(ts, st.pos) != ENDFILE ==> st.pos < r.value.st.pos
  {
    var ty := TypeSpecifier(ts, st);
    var id := IdAt(ts, ty.st.pos);
    var st1 := Match(ts, ty.st, ID);
    DeclarationTail(ts, st1, ty.tree, id)
  }

  /** `declaration'`: `;` gives a variable, `[` an array variable and `(`
      a function; anything else is reported and skipped, giving null. */
  function DeclarationTail(ts: seq<Lexed>, st: PState, ty: Tree, id: Tree): (r: Res)
    requires WellFormed(ty) && WellFormed(id)
    ensures r.Ok? ==> Later(st, r.value.st) && WellFormed(r.value.tree) && Detached(r.value.tree)
    ensures r.Ok? ==> r.value.tree.Null? || IsDecl(r.value.tree)
    ensures r.Ok? && Tok(ts, st.pos) != ENDFILE ==> st.pos < r.value.st.pos
    ensures Tok(ts, st.pos) == SEMI ==> r == Ok(Parsed(VarDeclNode(ty, id), PState(st.pos + 1, st.errs)))
    ensures Tok(ts, st.pos) == LBRACKET ==>
      r.Ok? && r.value.tree.Node? && r.value.tree.kind == StmtK(VarDeclK) && r.value.tree.child0 == ty
      && r.value.tree.child1.Node? && r.value.tree.child1.kind == ExpK(ArrayDeclK) && r.value.tree.child1.child0 == id
    ensures Tok(ts, st.pos) == LPAREN && r.Ok? ==>
      r.value.tree.Node? && r.value.tree.kind == StmtK(FuncK) && r.value.tree.child0 == ty && r.value.tree.child1 == id
      && r.value.tree.child2.Node? && r.value.tree.child2.kind == StmtK(ParamsK)
      && r.value.tree.child3.Node? && r.value.tree.child3.kind == StmtK(CompK)
    ensures Tok(ts, st.pos) != SEMI && Tok(ts, st.pos) != LBRACKET && Tok(ts, st.pos) != LPAREN ==>
      r.Ok? && r.value.tree.Null? && r.value.st.errs == st.errs + [Unexpected(Tok(ts, st.pos), st.pos)]
  {
    var t := Tok(ts, st.pos);
    if t == SEMI then Ok(Parsed(VarDeclNode(ty, id), Match(ts, st, SEMI)))
    else if t == LBRACKET then Ok(ArrayDeclTail(ts, st, ty, id))
    else if t == LPAREN then FunDecl(ts, st, ty, id)
    else Ok(Parsed(Null, Skip(ts, st)))
  }

  /** The `(` branch of `declaration'`: a `FuncK` node of the type, the
      name, the parameters and the body. */
  function FunDecl(ts: seq<Lexed>, st: PState, ty: Tree, id: Tree): (r: Res)
    requires Tok(ts, st.pos) == LPAREN && WellFormed(ty) && WellFormed(id)
    ensures r.Ok? ==> Later(st, r.value.st) && st.pos < r.value.st.pos
    ensures r.Ok? ==> WellFormed(r.value.tree) && Detached(r.value.tree)
    ensures r.Ok? ==> r.value.tree.Node? && r.value.tree.kind == StmtK(FuncK)
    ensures r.Ok? ==> r.value.tree.child0 == ty && r.value.tree.child1 == id
    ensures r.Ok? ==> r.value.tree.child2 == ParamList(ts, PState(st.pos + 1, st.errs)).tree
    ensures r.Ok? ==> r.value.tree.child2.Node? && r.value.tree.child2.kind == StmtK(ParamsK)
    ensures r.Ok? ==> r.value.tree.child3.Node? && r.value.tree.child3.kind == StmtK(CompK)
  {
    var st1 := Match(ts, st, LPAREN);
    var ps := ParamList(ts, st1);
    var st2 := Match(ts, ps.st, RPAREN);
    var comp :- Compound(ts, st2);
    Ok(Parsed(Plain(StmtK(FuncK), ty, id, ps.tree, comp.tree), comp.st))
  }

  /** `var_decl`: a local or parameter-style declaration. */
  function VarDecl(ts: seq<Lexed>, st: PState): (r: Parsed)
    ensures Later(st, r.st) && WellFormed(r.tree) && Detached(r.tree)
    ensures Tok(ts, st.pos) != ENDFILE ==> st.pos < r.st.pos
  {
    var ty := TypeSpecifier(ts, st);
    var id := IdAt(ts, ty.st.pos);
    var st1 := Match(ts, ty.st, ID);
    VarDeclTail(ts, st1, ty.tree, id)
  }

  /** `var_decl'`: like `declaration'` without functions, and also ended by
      `,` or `)`. */
  function VarDeclTail(ts: seq<Lexed>, st: PState, ty: Tree, id: Tree): (r: Parsed)
    requires WellFormed(ty) && WellFormed(id)
    ensures Later(st, r.st) && WellFormed(r.tree) && Detached(r.tree)
    ensures Tok(ts, st.pos) != ENDFILE ==> st.pos < r.st.pos
    ensures Tok(ts, st.pos) in {SEMI, COMMA, RPAREN} ==> r == Parsed(VarDeclNode(ty, id), PState(st.pos + 1, st.errs))
    ensures Tok(ts, st.pos) == LBRACKET ==>
      r.tree.Node? && r.tree.kind == StmtK(VarDeclK) && r.tree.child0 == ty
      && r.tree.child1.Node? && r.tree.child1.kind == ExpK(ArrayDeclK) && r.tree.child1.child0 == id
    ensures Tok(ts, st.pos) !in {SEMI, COMMA, RPAREN, LBRACKET} ==>
      r.tree.Null? && r.st.errs == st.errs + [Unexpected(Tok(ts, st.pos), st.pos)]
  {
    var t := Tok(ts, st.pos);
    if t == SEMI || t == COMMA || t == RPAREN then Parsed(VarDeclNode(ty, id), Match(ts, st, t))
    else if t == LBRACKET then ArrayDeclTail(ts, st, ty, id)
    else Parsed(Null, Skip(ts, st))
  }

  // ---------------------------------------------------------------------
  // Parameters

  /** `param_list`: always a `ParamsK` node; its child is what
      `param_list1` (for `void`) or `param_list2` (for `int`) returns. */
  function ParamList(ts: seq<Lexed>, st: PState): (r: Parsed)
    ensures Later(st, r.st) && WellFormed(r.tree) && Detached(r.tree)
    ensures r.tree.Node? && r.tree.kind == StmtK(ParamsK)
    ensures r.tree.child0.Node? <==> Tok(ts, st.pos) == VOID || Tok(ts, st.pos) == INT
  {
    var t := Tok(ts, st.pos);
    if t == VOID then
      var p := ParamList1(ts, st);
      Parsed(Plain(StmtK(ParamsK), p.tree, Null, Null, Null), p.st)
    else if t == INT then
      var p := ParamList2(ts, st);
      Parsed(Plain(StmtK(ParamsK), p.tree, Null, Null, Null), p.st)
    else Parsed(Leaf(StmtK(ParamsK)), Skip(ts, st))
  }

  /** The optional `[ ]` of an array parameter: when present, child 2 is
      the empty-name marker. */
  function OptBrackets(ts: seq<Lexed>, st: PState, t: Tree): (r: Parsed)
    requires t.Node? && t.kind == StmtK(ParamK)
    ensures Later(st, r.st)
    ensures r.tree.Node? && r.tree.kind == t.kind && r.tree.child0 == t.child0 && r.tree.child1 == t.child1
    ensures WellFormed(t) ==> WellFormed(r.tree)
    ensures Detached(t) ==> Detached(r.tree)
    ensures Tok(ts, st.pos) == LBRACKET ==> r.tree.child2 == EmptyName() && r.tree.child3 == t.child3
    ensures Tok(ts, st.pos) == LBRACKET && Tok(ts, st.pos + 1) == RBRACKET ==> r.st == PState(st.pos + 2, st.errs)
    ensures Tok(ts, st.pos) != LBRACKET ==> r == Parsed(t, st)
  {
    if Tok(ts, st.pos) == LBRACKET then
      var st1 := Match(ts, st, LBRACKET);
      Parsed(Plain(t.kind, t.child0, t.child1, EmptyName(), t.child3), Match(ts, st1, RBRACKET))
    else Parsed(t, st)
  }

  /** `param_list1`: `void`, optionally followed by a name, brackets and
      more parameters. */
  function ParamList1(ts: seq<Lexed>, st: PState): (r: Parsed)
    ensures Later(st, r.st) && WellFormed(r.tree) && Detached(r.tree)
    ensures r.tree.Node? && r.tree.kind == StmtK(ParamK)
  {
    var t := Plain(StmtK(ParamK), Leaf(ExpK(VoidK)), Null, Null, Null);
    var st1 := Match(ts, st, VOID);
    if Tok(ts, st1.pos) == ID then
      var t1 := Plain(StmtK(ParamK), t.child0, NamedId(Text(ts, st1.pos)), Null, Null);
      var st2 := Match(ts, st1, ID);
      var b := OptBrackets(ts, st2, t1);
      ParamLoop(ts, b.st, b.tree)
    else Parsed(t, st1)
  }

  /** `param_list2`: `int`, a name (the current lexeme is taken as the name
      whether or not it is an identifier), brackets and more parameters. */
  function ParamList2(ts: seq<Lexed>, st: PState): (r: Parsed)
    ensures Later(st, r.st) && WellFormed(r.tree) && Detached(r.tree)
    ensures r.tree.Node? && r.tree.kind == StmtK(ParamK)
  {
    var st1 := Match(ts, st, INT);
    var t1 := Plain(StmtK(ParamK), Leaf(ExpK(IntK)), NamedId(Text(ts, st1.pos)), Null, Null);
    var st2 := Match(ts, st1, ID);
    var b := OptBrackets(ts, st2, t1);
    ParamLoop(ts, b.st, b.tree)
  }

  /** The `while (token == COMMA)` loop of both parameter lists: each
      further parameter is linked after the previous one and becomes the
      loop's `t`, so the loop ends holding the last parameter. */
  function ParamLoop(ts: seq<Lexed>, st: PState, last: Tree): (r: Parsed)
    requires last.Node? && last.kind == StmtK(ParamK)
    ensures Later(st, r.st)
    ensures r.tree.Node? && r.tree.kind == StmtK(ParamK)
    ensures Tok(ts, st.pos) != COMMA ==> r == Parsed(last, st)
    ensures WellFormed(last) && Detached(last) ==> WellFormed(r.tree) && Detached(r.tree)
    decreases Remaining(ts, st.pos)
  {
    if Tok(ts, st.pos) == COMMA then
      var st1 := Match(ts, st, COMMA);
      var p := Param(ts, st1);
      ParamLoop(ts, p.st, p.tree)
    else Parsed(last, st)
  }

  /** `param`: type, optional name, optional brackets. The type and name
      are attached only when the type was recognised. */
  function Param(ts: seq<Lexed>, st: PState): (r: Parsed)
    ensures Later(st, r.st) && WellFormed(r.tree) && Detached(r.tree)
    ensures r.tree.Node? && r.tree.kind == StmtK(ParamK)
    ensures r.tree.child0.Node? <==> Tok(ts, st.pos) == INT || Tok(ts, st.pos) == VOID
    ensures r.tree.child0.Node? ==> r.tree.child0 == TypeSpecifier(ts, st).tree && r.tree.child1.Node?
    ensures r.tree.child0.Null? ==> r.tree.child1.Null?
    ensures r.tree.child0.Node? && Tok(ts, st.pos + 1) == ID ==> r.tree.child1 == NamedId(Text(ts, st.pos + 1))
  {
    var ty := TypeSpecifier(ts, st);
    var named := Tok(ts, ty.st.pos) == ID;
    var id := if named then NamedId(Text(ts, ty.st.pos)) else Leaf(ExpK(IdK));
    var st1 := if named then Match(ts, ty.st, ID) else ty.st;
    var t1 := if ty.tree.Node? then Plain(StmtK(ParamK), ty.tree, id, Null, Null) else Leaf(StmtK(ParamK));
    OptBrackets(ts, st1, t1)
  }

  // ---------------------------------------------------------------------
  // Statements
  //
  // Termination: every call either consumes a token first or moves to a
  // procedure of lower rank (the second component of `decreases`). The
  // procedures entered by a keyword (`if`, `while`, `{`) rank low when
  // that keyword is current, so `stmt` can call them, and high otherwise,
  // so that they can call `stmt` again without having consumed anything.

  /** The tokens on which an expression is parsed where one is optional. */
  predicate StartsExp(t: TokenType) {
    t == ID || t == LPAREN || t == NUM
  }

  /** The tokens `statement` dispatches on. */
  predicate StartsStmt(t: TokenType) {
    t == IF || t == WHILE || t == RETURN || StartsExp(t) || t == LBRACE
  }

  /** `statement`: dispatches on the current token; anything else
      (including `;`) is reported and skipped, giving null. */
  function Stmt(ts: seq<Lexed>, st: PState): (r: Res)
    ensures r.Ok? ==> Later(st, r.value.st) && WellFormed(r.value.tree) && Detached(r.value.tree)
    ensures r.Ok? && Tok(ts, st.pos) != ENDFILE ==> st.pos < r.value.st.pos
    ensures !StartsStmt(Tok(ts, st.pos)) ==> r == Ok(Parsed(Null, Skip(ts, st)))
    decreases Remaining(ts, st.pos), 13
  {
    var t := Tok(ts, st.pos);
    if t == IF then Selection(ts, st)
    else if t == WHILE then Iteration(ts, st)
    else if t == RETURN then Return(ts, st)
    else if StartsExp(t) then ExpStmt(ts, st)
    else if t == LBRACE then Compound(ts, st)
    else Ok(Parsed(Null, Skip(ts, st)))
  }

  /** The `kw ( expression )` head shared by `selection_stmt` and
      `iteration_stmt`: the condition and the state after `)`. */
  function Condition(ts: seq<Lexed>, st: PState, kw: TokenType): (r: Res)
    ensures !r.Diverges?
    ensures r.Ok? ==> Later(st, r.value.st) && WellFormed(r.value.tree) && Detached(r.value.tree)
    ensures r.Ok? && Tok(ts, st.pos) == kw && kw != ENDFILE ==> st.pos < r.value.st.pos
    decreases Remaining(ts, st.pos), 10
  {
    var st1 := Match(ts, st, kw);
    var st2 := Match(ts, st1, LPAREN);
    var c :- Exp(ts, st2);
    Ok(Parsed(c.tree, Match(ts, c.st, RPAREN)))
  }

  /** `selection_stmt`: `IfK` with the condition, the then-branch and, when
      `else` follows, the else-branch. */
  function Selection(ts: seq<Lexed>, st: PState): (r: Res)
    ensures r.Ok? ==> Later(st, r.value.st) && WellFormed(r.value.tree) && Detached(r.value.tree)
    ensures r.Ok? ==> r.value.tree.Node? && r.value.tree.kind == StmtK(IfK)
    ensures r.Ok? && Tok(ts, st.pos) == IF ==> st.pos < r.value.st.pos
    ensures r.Ok? ==> Condition(ts, st, IF).Ok? && r.value.tree.child0 == Condition(ts, st, IF).value.tree
    ensures r.Ok? ==>
      var th := Stmt(ts, Condition(ts, st, IF).value.st);
      th.Ok? && r.value.tree.child1 == th.value.tree
    ensures r.Ok? ==> r.value.tree.child3.Null?
    decreases Remaining(ts, st.pos), if Tok(ts, st.pos) == IF then 12 else 16
  {
    var c :- Condition(ts, st, IF);
    IfBranches(ts, c.st, c.tree)
  }

  /** The branches of `selection_stmt` after its condition; an `else` is
      taken by the innermost `if` still open. */
  function IfBranches(ts: seq<Lexed>, st: PState, c: Tree): (r: Res)
    requires WellFormed(c) && Detached(c)
    ensures r.Ok? ==> Later(st, r.value.st) && WellFormed(r.value.tree) && Detached(r.value.tree)
    ensures r.Ok? ==> r.value.tree.Node? && r.value.tree.kind == StmtK(IfK) && r.value.tree.child0 == c
    ensures r.Ok? ==> Stmt(ts, st).Ok? && r.value.tree.child1 == Stmt(ts, st).value.tree && r.value.tree.child3.Null?
    ensures r.Ok? && Tok(ts, Stmt(ts, st).value.st.pos) != ELSE ==>
      r.value.tree.child2.Null? && r.value.st == Stmt(ts, st).value.st
    ensures r.Ok? && Tok(ts, Stmt(ts, st).value.st.pos) == ELSE ==>
      var el := Stmt(ts, Match(ts, Stmt(ts, st).value.st, ELSE));
      el.Ok? && r.value.tree.child2 == el.value.tree && r.value.st == el.value.st
    decreases Remaining(ts, st.pos), 15
  {
    var th :- Stmt(ts, st);
    if Tok(ts, th.st.pos) == ELSE then
      var el :- Stmt(ts, Match(ts, th.st, ELSE));
      Ok(Parsed(Plain(StmtK(IfK), c, th.tree, el.tree, Null), el.st))
    else
      Ok(Parsed(Plain(StmtK(IfK), c, th.tree, Null, Null), th.st))
  }

  /** `iteration_stmt`: `WhileK` with the condition and the body. */
  function Iteration(ts: seq<Lexed>, st: PState): (r: Res)
    ensures r.Ok? ==> Later(st, r.value.st) && WellFormed(r.value.tree) && Detached(r.value.tree)
    ensures r.Ok? ==> r.value.tree.Node? && r.value.tree.kind == StmtK(WhileK)
    ensures r.Ok? && Tok(ts, st.pos) == WHILE ==> st.pos < r.value.st.pos
    ensures r.Ok? ==> Condition(ts, st, WHILE).Ok? && r.value.tree.child0 == Condition(ts, st, WHILE).value.tree
    ensures r.Ok? ==>
      var body := Stmt(ts, Condition(ts, st, WHILE).value.st);
      body.Ok? && r.value.tree.child1 == body.value.tree && r.value.st == body.value.st
    ensures r.Ok? ==> r.value.tree.child2.Null? && r.value.tree.child3.Null?
    decreases Remaining(ts, st.pos), if Tok(ts, st.pos) == WHILE then 12 else 16
  {
    var c :- Condition(ts, st, WHILE);
    var body :- Stmt(ts, c.st);
    Ok(Parsed(Plain(StmtK(WhileK), c.tree, body.tree, Null, Null), body.st))
  }

  /** `return_stmt`: `ReturnK`, with an expression only when the token
      after `return` can start one (an identifier, `(` or a number). */
  function Return(ts: seq<Lexed>, st: PState): (r: Res)
    ensures !r.Diverges?
    ensures r.Ok? ==> Later(st, r.value.st) && WellFormed(r.value.tree) && Detached(r.value.tree)
    ensures r.Ok? ==> r.value.tree.Node? && r.value.tree.kind == StmtK(ReturnK)
    ensures r.Ok? && Tok(ts, st.pos) == RETURN ==> st.pos < r.value.st.pos
    ensures r.Ok? && !StartsExp(Tok(ts, Match(ts, st, RETURN).pos)) ==> r.value.tree.child0.Null?
    decreases Remaining(ts, st.pos), 12
  {
    var st1 := Match(ts, st, RETURN);
    if StartsExp(Tok(ts, st1.pos)) then
      var e :- Exp(ts, st1);
      Ok(Parsed(Plain(StmtK(ReturnK), e.tree, Null, Null, Null), Match(ts, e.st, SEMI)))
    else
      Ok(Parsed(Leaf(StmtK(ReturnK)), Match(ts, st1, SEMI)))
  }

  /** `expression_stmt`: an expression and `;`, or a lone `;` (null). */
  function ExpStmt(ts: seq<Lexed>, st: PState): (r: Res)
    ensures !r.Diverges?
    ensures r.Ok? ==> Later(st, r.value.st) && WellFormed(r.value.tree) && Detached(r.value.tree)
    ensures r.Ok? && Tok(ts, st.pos) != ENDFILE ==> st.pos < r.value.st.pos
    decreases Remaining(ts, st.pos), 12
  {
    var t := Tok(ts, st.pos);
    if StartsExp(t) then
      var e :- Exp(ts, st);
      Ok(Parsed(e.tree, Match(ts, e.st, SEMI)))
    else if t == SEMI then Ok(Parsed(Null, Match(ts, st, SEMI)))
    else Ok(Parsed(Null, Skip(ts, st)))
  }

  /** `compound_stmt`: `CompK` whose first child heads the chain of the
      block's declarations and statements, in source order. */
  function Compound(ts: seq<Lexed>, st: PState): (r: Res)
    ensures r.Ok? ==> Later(st, r.value.st) && WellFormed(r.value.tree) && Detached(r.value.tree)
    ensures r.Ok? ==> r.value.tree.Node? && r.value.tree.kind == StmtK(CompK)
    ensures r.Ok? && Tok(ts, st.pos) == LBRACE ==> st.pos < r.value.st.pos
    ensures r.Ok? ==>
      var body := CompoundLoop(ts, Match(ts, st, LBRACE));
      body.Ok? && r.value.tree.child0 == body.value.tree && r.value.st == Match(ts, body.value.st, RBRACE)
    ensures r.Ok? ==> r.value.tree.child1.Null? && r.value.tree.child2.Null? && r.value.tree.child3.Null?
    decreases Remaining(ts, st.pos), if Tok(ts, st.pos) == LBRACE then 12 else 16
  {
    var st1 := Match(ts, st, LBRACE);
    var body :- CompoundLoop(ts, st1);
    Ok(Parsed(Plain(StmtK(CompK), body.tree, Null, Null, Null), Match(ts, body.st, RBRACE)))
  }

  /** The `while (token != RBRACE)` loop of `compound_stmt`: declarations
      and statements in any order, the non-null ones kept in order. At end
      of input the loop reports the token and fetches `ENDFILE` again
      forever. */
  function CompoundLoop(ts: seq<Lexed>, st: PState): (r: Res)
    ensures r.Ok? ==> Later(st, r.value.st) && Tok(ts, r.value.st.pos) == RBRACE
    ensures r.Ok? ==> WellFormed(r.value.tree)
    decreases Remaining(ts, st.pos), 15
  {
    var t := Tok(ts, st.pos);
    if t == RBRACE then Ok(Parsed(Null, st))
    else if t == ENDFILE then Diverges
    else if StartsItem(t) then
      var q :- CompoundItem(ts, st);
      var rest :- CompoundLoop(ts, q.st);
      Ok(Parsed(Push(q.tree, rest.tree), rest.st))
    else CompoundLoop(ts, Skip(ts, st))
  }

  /** The tokens on which the block loop parses an item. */
  predicate StartsItem(t: TokenType) {
    t == VOID || t == INT || t == SEMI || StartsStmt(t)
  }

  /** One pass of the block loop: a local declaration on `void` or `int`,
      otherwise a statement. */
  function CompoundItem(ts: seq<Lexed>, st: PState): (r: Res)
    ensures r.Ok? ==> Later(st, r.value.st) && WellFormed(r.value.tree) && Detached(r.value.tree)
    ensures r.Ok? && Tok(ts, st.pos) != ENDFILE ==> st.pos < r.value.st.pos
    decreases Remaining(ts, st.pos), 14
  {
    if Tok(ts, st.pos) == VOID || Tok(ts, st.pos) == INT then Ok(VarDecl(ts, st))
    else Stmt(ts, st)
  }

  // ---------------------------------------------------------------------
  // Expressions

  /** `expression`: on an identifier, the next token chooses an array
      element (then an assignment if `=` follows), a call, an assignment,
      or a plain variable fed to `simple_exp`; after any other follower
      the result is null without a report. */
  function Exp(ts: seq<Lexed>, st: PState): (r: Res)
    ensures !r.Diverges?
    ensures r.Ok? ==> Later(st, r.value.st) && WellFormed(r.value.tree) && Detached(r.value.tree)
    ensures r.Ok? && Tok(ts, st.pos) != ENDFILE ==> st.pos < r.value.st.pos
    decreases Remaining(ts, st.pos), 9
  {
    var t := Tok(ts, st.pos);
    if t == ID then IdExp(ts, Match(ts, st, ID), NamedId(Text(ts, st.pos)))
    else if t == LPAREN then ParenExp(ts, st)
    else if t == NUM then
      // `simple_exp` runs while the number is still the current token
      var s :- SimpleExp(ts, st, ConstAt(ts, st.pos));
      Ok(Parsed(s.tree, Match(ts, s.st, NUM)))
    else Ok(Parsed(Null, Skip(ts, st)))
  }

  /** The `(` branch of `expression`: the parenthesised expression is fed
      to `simple_exp`. */
  function ParenExp(ts: seq<Lexed>, st: PState): (r: Res)
    requires Tok(ts, st.pos) == LPAREN
    ensures !r.Diverges?
    ensures r.Ok? ==> Later(st, r.value.st) && st.pos < r.value.st.pos
    ensures r.Ok? ==> WellFormed(r.value.tree) && Detached(r.value.tree)
    ensures r.Ok? ==>
      var e := Exp(ts, PState(st.pos + 1, st.errs));
      e.Ok? && (r.value.tree == e.value.tree ||
        (r.value.tree.Node? && r.value.tree.kind == ExpK(OpK) && r.value.tree.attr.Op? && IsRelop(r.value.tree.attr.op)))
    decreases Remaining(ts, st.pos), 8
  {
    var e :- Exp(ts, Match(ts, st, LPAREN));
    SimpleExp(ts, Match(ts, e.st, RPAREN), e.tree)
  }

  /** The identifier branch of `expression`, once the name is consumed. */
  function IdExp(ts: seq<Lexed>, st: PState, id: Tree): (r: Res)
    requires id.Node? && id.kind == ExpK(IdK) && WellFormed(id) && Detached(id)
    ensures !r.Diverges?
    ensures r.Ok? ==> Later(st, r.value.st) && WellFormed(r.value.tree) && Detached(r.value.tree)
    ensures !IdFollower(Tok(ts, st.pos)) ==> r == Ok(Parsed(Null, st))
    decreases Remaining(ts, st.pos), 9
  {
    var next := Tok(ts, st.pos);
    if next == LBRACKET then IndexExp(ts, st, id)
    else if next == LPAREN then CallExp(ts, st, id)
    else if next == ASSIGN then AssignTail(ts, st, id)
    else if ExpFollower(next) then SimpleExp(ts, st, id)
    else Ok(Parsed(Null, st))
  }

  /** `= expression` after a variable or an array element: an `AssignK`
      node of the target and the right-hand side. */
  function AssignTail(ts: seq<Lexed>, st: PState, lhs: Tree): (r: Res)
    requires Tok(ts, st.pos) == ASSIGN && WellFormed(lhs)
    ensures !r.Diverges?
    ensures r.Ok? ==> Later(st, r.value.st) && st.pos < r.value.st.pos
    ensures r.Ok? ==> WellFormed(r.value.tree) && Detached(r.value.tree)
    ensures r.Ok? ==> r.value.tree.Node? && r.value.tree.kind == StmtK(AssignK) && r.value.tree.child0 == lhs
    ensures r.Ok? ==>
      var rhs := Exp(ts, PState(st.pos + 1, st.errs));
      rhs.Ok? && r.value.tree.child1 == rhs.value.tree && r.value.st == rhs.value.st
    ensures r.Ok? ==> r.value.tree.child2.Null? && r.value.tree.child3.Null?
    decreases Remaining(ts, st.pos), 7
  {
    var rhs :- Exp(ts, Match(ts, st, ASSIGN));
    Ok(Parsed(Plain(StmtK(AssignK), lhs, rhs.tree, Null, Null), rhs.st))
  }

  /** `[ expression ]` after a name in `expression`: an `ArrayElemK` node,
      continued by `ElemExp`. */
  function IndexExp(ts: seq<Lexed>, st: PState, id: Tree): (r: Res)
    requires Tok(ts, st.pos) == LBRACKET && id.Node? && WellFormed(id) && Detached(id)
    ensures !r.Diverges?
    ensures r.Ok? ==> Later(st, r.value.st) && WellFormed(r.value.tree) && Detached(r.value.tree)
    decreases Remaining(ts, st.pos), 7
  {
    var e :- Exp(ts, Match(ts, st, LBRACKET));
    ElemExp(ts, Match(ts, e.st, RBRACKET), Plain(ExpK(ArrayElemK), id, e.tree, Null, Null))
  }

  /** `( args )` after a name in `expression`: a `CallK` node fed to
      `simple_exp`. */
  function CallExp(ts: seq<Lexed>, st: PState, id: Tree): (r: Res)
    requires Tok(ts, st.pos) == LPAREN && WellFormed(id) && Detached(id)
    ensures !r.Diverges?
    ensures r.Ok? ==> Later(st, r.value.st) && WellFormed(r.value.tree) && Detached(r.value.tree)
    decreases Remaining(ts, st.pos), 7
  {
    var a :- Args(ts, Match(ts, st, LPAREN));
    SimpleExp(ts, Match(ts, a.st, RPAREN), Plain(ExpK(CallK), id, a.tree, Null, Null))
  }

  /** The array-element branch of `expression`, once `]` is matched: an
      assignment to the element, or the element fed to `simple_exp`. */
  function ElemExp(ts: seq<Lexed>, st: PState, elem: Tree): (r: Res)
    requires elem.Node? && elem.kind == ExpK(ArrayElemK) && WellFormed(elem) && Detached(elem)
    ensures !r.Diverges?
    ensures r.Ok? ==> Later(st, r.value.st) && WellFormed(r.value.tree) && Detached(r.value.tree)
    ensures Tok(ts, st.pos) == ASSIGN && r.Ok? ==>
      r.value.tree.Node? && r.value.tree.kind == StmtK(AssignK) && r.value.tree.child0 == elem
    ensures ExpFollower(Tok(ts, st.pos)) && r.Ok? ==>
      r.value.tree == elem || (r.value.tree.Node? && r.value.tree.kind == ExpK(OpK))
    ensures Tok(ts, st.pos) != ASSIGN && !ExpFollower(Tok(ts, st.pos)) ==> r == Ok(Parsed(Null, st))
    decreases Remaining(ts, st.pos), 8
  {
    var next := Tok(ts, st.pos);
    if next == ASSIGN then AssignTail(ts, st, elem)
    else if ExpFollower(next) then SimpleExp(ts, st, elem)
    else Ok(Parsed(Null, st))
  }

  /** `simple_exp(addNode)`: consumes runs of multiplicative and additive
      operators and at most one relational operator. The result is an
      operator node only when a relational operator follows; otherwise it
      is `addNode` itself. */
  function SimpleExp(ts: seq<Lexed>, st: PState, addNode: Tree): (r: Res)
    ensures !r.Diverges?
    ensures r.Ok? ==> Later(st, r.value.st)
    ensures r.Ok? && WellFormed(addNode) ==> WellFormed(r.value.tree)
    ensures r.Ok? && Detached(addNode) ==> Detached(r.value.tree)
    ensures r.Ok? ==> (r.value.tree == addNode ||
      (r.value.tree.Node? && r.value.tree.kind == ExpK(OpK) && r.value.tree.attr.Op? && IsRelop(r.value.tree.attr.op)))
    ensures addNode.Null? ==> r == Ok(Parsed(Null, st))
    ensures !IsMulop(Tok(ts, st.pos)) && !IsAddop(Tok(ts, st.pos)) && !IsRelop(Tok(ts, st.pos)) ==>
      r == Ok(Parsed(addNode, st))
    decreases Remaining(ts, st.pos), 6
  {
    if addNode.Null? then Ok(Parsed(Null, st))
    else
      var m :- MulLoop(ts, st, addNode, Null);
      var termNode := if m.tree.Null? then addNode else m.tree;
      var a :- AddLoop(ts, m.st, termNode, Null);
      var addExpNode := if a.tree.Null? then addNode else a.tree;
      var op := Tok(ts, a.st.pos);
      if IsRelop(op) then
        var st1 := Match(ts, a.st, op);
        var rhs :- AdditiveExp(ts, st1);
        Ok(Parsed(OpNode(op, addExpNode, rhs.tree), rhs.st))
      else
        Ok(Parsed(addNode, a.st))
  }

  /** The `while (token == OVER || token == TIMES)` loop of `simple_exp`:
      each operator builds a new node over the same `addNode`, so only the
      last one survives. */
  function MulLoop(ts: seq<Lexed>, st: PState, addNode: Tree, termNode: Tree): (r: Res)
    ensures !r.Diverges?
    ensures r.Ok? ==> Later(st, r.value.st)
    ensures r.Ok? && WellFormed(addNode) && WellFormed(termNode) ==> WellFormed(r.value.tree)
    ensures r.Ok? && Detached(termNode) ==> Detached(r.value.tree)
    ensures !IsMulop(Tok(ts, st.pos)) ==> r == Ok(Parsed(termNode, st))
    ensures r.Ok? && IsMulop(Tok(ts, st.pos)) ==> r.value.tree.Node? && r.value.tree.child0 == addNode
    ensures r.Ok? ==> !IsMulop(Tok(ts, r.value.st.pos))
    decreases Remaining(ts, st.pos), 5
  {
    var op := Tok(ts, st.pos);
    if IsMulop(op) then
      var st1 := Match(ts, st, op);
      var rhs :- Term(ts, st1);
      MulLoop(ts, rhs.st, addNode, OpNode(op, addNode, rhs.tree))
    else Ok(Parsed(termNode, st))
  }

  /** The `while (token == MINUS || token == PLUS)` loop of `simple_exp`:
      likewise, each new node has the same left operand. */
  function AddLoop(ts: seq<Lexed>, st: PState, termNode: Tree, addExpNode: Tree): (r: Res)
    ensures !r.Diverges?
    ensures r.Ok? ==> Later(st, r.value.st)
    ensures r.Ok? && WellFormed(termNode) && WellFormed(addExpNode) ==> WellFormed(r.value.tree)
    ensures r.Ok? && Detached(addExpNode) ==> Detached(r.value.tree)
    ensures !IsAddop(Tok(ts, st.pos)) ==> r == Ok(Parsed(addExpNode, st))
    ensures r.Ok? && IsAddop(Tok(ts, st.pos)) ==> r.value.tree.Node? && r.value.tree.child0 == termNode
    ensures r.Ok? ==> !IsAddop(Tok(ts, r.value.st.pos))
    decreases Remaining(ts, st.pos), 5
  {
    var op := Tok(ts, st.pos);
    if IsAddop(op) then
      var st1 := Match(ts, st, op);
      var rhs :- AdditiveExp(ts, st1);
      AddLoop(ts, rhs.st, termNode, OpNode(op, termNode, rhs.tree))
    else Ok(Parsed(addExpNode, st))
  }

  /** The tokens after which `additive_expression` returns its term. */
  predicate AdditiveFollower(t: TokenType) {
    IsRelop(t) || t == RPAREN || t == SEMI
  }

  /** The tokens after which `term` returns its factor. */
  predicate TermFollower(t: TokenType) {
    t == MINUS || t == PLUS || t == RPAREN || t == SEMI
  }

  /** `additive_expression`: a term, then `+`/`-` and an additive
      expression to the right; null when the term is followed by anything
      but an additive or relational operator, `)` or `;`. */
  function AdditiveExp(ts: seq<Lexed>, st: PState): (r: Res)
    ensures !r.Diverges?
    ensures r.Ok? ==> Later(st, r.value.st) && WellFormed(r.value.tree) && Detached(r.value.tree)
    ensures r.Ok? ==> Term(ts, st).Ok?
    ensures r.Ok? && IsAddop(Tok(ts, Term(ts, st).value.st.pos)) ==>
      r.value.tree.Node? && r.value.tree.kind == ExpK(OpK) && r.value.tree.child0 == Term(ts, st).value.tree
    ensures r.Ok? && AdditiveFollower(Tok(ts, Term(ts, st).value.st.pos)) ==> r.value == Term(ts, st).value
    ensures r.Ok? && !IsAddop(Tok(ts, Term(ts, st).value.st.pos)) && !AdditiveFollower(Tok(ts, Term(ts, st).value.st.pos)) ==>
      r.value == Parsed(Null, Term(ts, st).value.st)
    decreases Remaining(ts, st.pos), 4
  {
    var tn :- Term(ts, st);
    var op := Tok(ts, tn.st.pos);
    if IsAddop(op) then
      var st1 := Match(ts, tn.st, op);
      var rhs :- AdditiveExp(ts, st1);
      Ok(Parsed(OpNode(op, tn.tree, rhs.tree), rhs.st))
    else if AdditiveFollower(op) then Ok(tn)
    else Ok(Parsed(Null, tn.st))
  }

  /** `term`: a factor, then `*`/`/` and a term to the right; null when the
      factor is followed by anything but `+`, `-`, `)` or `;`. */
  function Term(ts: seq<Lexed>, st: PState): (r: Res)
    ensures !r.Diverges?
    ensures r.Ok? ==> Later(st, r.value.st) && WellFormed(r.value.tree) && Detached(r.value.tree)
    ensures r.Ok? ==> Factor(ts, st).Ok?
    ensures r.Ok? && IsMulop(Tok(ts, Factor(ts, st).value.st.pos)) ==>
      r.value.tree.Node? && r.value.tree.kind == ExpK(OpK) && r.value.tree.child0 == Factor(ts, st).value.tree
    ensures r.Ok? && TermFollower(Tok(ts, Factor(ts, st).value.st.pos)) ==> r.value == Factor(ts, st).value
    ensures r.Ok? && !IsMulop(Tok(ts, Factor(ts, st).value.st.pos)) && !TermFollower(Tok(ts, Factor(ts, st).value.st.pos)) ==>
      r.value == Parsed(Null, Factor(ts, st).value.st)
    decreases Remaining(ts, st.pos), 3
  {
    var f :- Factor(ts, st);
    var op := Tok(ts, f.st.pos);
    if IsMulop(op) then
      var st1 := Match(ts, f.st, op);
      var rhs :- Term(ts, st1);
      Ok(Parsed(OpNode(op, f.tree, rhs.tree), rhs.st))
    else if TermFollower(op) then Ok(f)
    else Ok(Parsed(Null, f.st))
  }

  /** `factor`: a parenthesised expression, an identifier (plain, indexed
      or called) or a number. */
  function Factor(ts: seq<Lexed>, st: PState): (r: Res)
    ensures !r.Diverges?
    ensures r.Ok? ==> Later(st, r.value.st) && WellFormed(r.value.tree) && Detached(r.value.tree)
    decreases Remaining(ts, st.pos), 2
  {
    var t := Tok(ts, st.pos);
    if t == LPAREN then
      var st1 := Match(ts, st, LPAREN);
      var e :- Exp(ts, st1);
      Ok(Parsed(e.tree, Match(ts, e.st, RPAREN)))
    else if t == ID then
      var id := NamedId(Text(ts, st.pos));
      var st1 := Match(ts, st, ID);
      var next := Tok(ts, st1.pos);
      if ExpFollower(next) then Ok(Parsed(id, st1))
      else if next == LPAREN || next == LBRACKET then FactorTail(ts, st1, id)
      else Ok(Parsed(Null, Skip(ts, st1)))
    else if t == NUM then Ok(Parsed(ConstAt(ts, st.pos), Match(ts, st, NUM)))
    else Ok(Parsed(Null, Skip(ts, st)))
  }

  /** `factor'`: an array element `[exp]` or a call `(args)` on the name. */
  function FactorTail(ts: seq<Lexed>, st: PState, id: Tree): (r: Res)
    requires WellFormed(id) && Detached(id)
    ensures !r.Diverges?
    ensures r.Ok? ==> Later(st, r.value.st) && WellFormed(r.value.tree) && Detached(r.value.tree)
    decreases Remaining(ts, st.pos), 1
  {
    var t := Tok(ts, st.pos);
    if t == LBRACKET then
      var st1 := Match(ts, st, LBRACKET);
      var e :- Exp(ts, st1);
      Ok(Parsed(Plain(ExpK(ArrayElemK), id, e.tree, Null, Null), Match(ts, e.st, RBRACKET)))
    else if t == LPAREN then
      var st1 := Match(ts, st, LPAREN);
      var a :- Args(ts, st1);
      Ok(Parsed(Plain(ExpK(CallK), id, a.tree, Null, Null), Match(ts, a.st, RPAREN)))
    else Ok(Parsed(Null, Skip(ts, st)))
  }

  /** `args`: null for `)`, otherwise an `ArgsK` node whose first child
      heads the chain of the comma-separated expressions. */
  function Args(ts: seq<Lexed>, st: PState): (r: Res)
    ensures !r.Diverges?
    ensures r.Ok? ==> Later(st, r.value.st) && WellFormed(r.value.tree) && Detached(r.value.tree)
    ensures r.Ok? && r.value.tree.Node? ==> r.value.tree.kind == ExpK(ArgsK)
    ensures Tok(ts, st.pos) == RPAREN ==> r == Ok(Parsed(Null, st))
    decreases Remaining(ts, st.pos), 11
  {
    var t := Tok(ts, st.pos);
    if t == RPAREN then Ok(Parsed(Null, st))
    else if StartsExp(t) then
      var e :- Exp(ts, st);
      var rest :- ArgsLoop(ts, e.st, e.tree);
      Ok(Parsed(Plain(ExpK(ArgsK), Link(e.tree, rest.tree), Null, Null, Null), rest.st))
    else Ok(Parsed(Null, Skip(ts, st)))
  }

  /** The `while (token == COMMA)` loop of `args`: the next expression is
      stored as the sibling of the previous one, `tail`, which faults when
      `tail` is null. The result is the chain hung after `tail`. */
  function ArgsLoop(ts: seq<Lexed>, st: PState, tail: Tree): (r: Res)
    ensures !r.Diverges?
    ensures r.Ok? ==> Later(st, r.value.st) && Tok(ts, r.value.st.pos) != COMMA
    ensures r.Ok? ==> WellFormed(r.value.tree)
    ensures Tok(ts, st.pos) != COMMA ==> r == Ok(Parsed(Null, st))
    ensures tail.Null? && Tok(ts, st.pos) == COMMA ==> r.NullDeref?
    decreases Remaining(ts, st.pos), 10
  {
    if Tok(ts, st.pos) == COMMA then
      var st1 := Match(ts, st, COMMA);
      var e :- Exp(ts, st1);
      if tail.Null? then NullDeref
      else
        var rest :- ArgsLoop(ts, e.st, e.tree);
        Ok(Parsed(Link(e.tree, rest.tree), rest.st))
    else Ok(Parsed(Null, st))
  }

  // ---------------------------------------------------------------------
  // Program

  /** A declaration node: what `declaration` returns when not null. */
  predicate IsDecl(t: Tree) {
    t.Node? && (t.kind == StmtK(VarDeclK) || t.kind == StmtK(FuncK))
  }

  /** A sibling chain of declaration nodes. */
  predicate DeclChain(t: Tree) {
    t.Null? || (IsDecl(t) && DeclChain(t.sibling))
  }

  /** `program`: declarations until end of input, the non-null ones linked
      in source order after the first. When the first is null the tail
      pointer is null, and linking the next non-null one faults. */
  function Program(ts: seq<Lexed>, st: PState): (r: Res)
    ensures r.Ok? ==> Later(st, r.value.st) && Tok(ts, r.value.st.pos) == ENDFILE
    ensures r.Ok? ==> WellFormed(r.value.tree) && DeclChain(r.value.tree)
  {
    var t :- Declaration(ts, st);
    var rest :- ProgramLoop(ts, t.st, t.tree.Null?);
    Ok(Parsed(Link(t.tree, rest.tree), rest.st))
  }

  /** The `while (token != ENDFILE)` loop of `program`; `tailNull` says the
      tail pointer `p` is null. The result is the chain hung after it. */
  function ProgramLoop(ts: seq<Lexed>, st: PState, tailNull: bool): (r: Res)
    ensures r.Ok? ==> Later(st, r.value.st) && Tok(ts, r.value.st.pos) == ENDFILE
    ensures r.Ok? ==> WellFormed(r.value.tree) && DeclChain(r.value.tree)
    ensures r.Ok? && tailNull ==> r.value.tree.Null?
    decreases Remaining(ts, st.pos)
  {
    if Tok(ts, st.pos) == ENDFILE then Ok(Parsed(Null, st))
    else
      var q :- Declaration(ts, st);
      if q.tree.Null? then ProgramLoop(ts, q.st, tailNull)
      else if tailNull then NullDeref
      else
        var rest :- ProgramLoop(ts, q.st, false);
        Ok(Parsed(Link(q.tree, rest.tree), rest.st))
  }

  /** `parse`: the program from the first token; a token left over would
      be reported. */
  function ParseTokens(ts: seq<Lexed>): (r: Res)
    ensures r.Ok? ==> WellFormed(r.value.tree) && DeclChain(r.value.tree)
    ensures r.Ok? ==> Tok(ts, r.value.st.pos) == ENDFILE
  {
    var p :- Program(ts, PState(0, []));
    if Tok(ts, p.st.pos) != ENDFILE then Ok(Parsed(p.tree, PState(p.st.pos, p.st.errs + [EndsBeforeFile])))
    else Ok(p)
  }
}
