/** The shared data model of the C-minus front end: the token kinds the
    scanner produces, the node kinds the parser builds, and the syntax-tree
    node with its four child slots, sibling link and attribute payload. */
module Globals {

  datatype Option<T> = None | Some(value: T)

  /** The token kinds, as the values of the source enumeration: two
      book-keeping tokens, the six reserved words, the two
      multi-character tokens and the nineteen special symbols. */
  newtype TokenType = n: int | 0 <= n < 29

  const ENDFILE: TokenType := 0
  const ERROR: TokenType := 1
  const IF: TokenType := 2
  const ELSE: TokenType := 3
  const INT: TokenType := 4
  const RETURN: TokenType := 5
  const VOID: TokenType := 6
  const WHILE: TokenType := 7
  const ID: TokenType := 8
  const NUM: TokenType := 9
  const ASSIGN: TokenType := 10
  const EQ: TokenType := 11
  const NEQ: TokenType := 12
  const LT: TokenType := 13
  const LE: TokenType := 14
  const GT: TokenType := 15
  const GE: TokenType := 16
  const PLUS: TokenType := 17
  const MINUS: TokenType := 18
  const TIMES: TokenType := 19
  const OVER: TokenType := 20
  const LPAREN: TokenType := 21
  const RPAREN: TokenType := 22
  const SEMI: TokenType := 23
  const COMMA: TokenType := 24
  const LBRACKET: TokenType := 25
  const RBRACKET: TokenType := 26
  const LBRACE: TokenType := 27
  const RBRACE: TokenType := 28

  /** Number of reserved words, the size of the scanner's keyword table. */
  const MAXRESERVED: nat := 6

  predicate IsReservedToken(t: TokenType) {
    t == IF || t == ELSE || t == INT || t == RETURN || t == VOID || t == WHILE
  }

  /** The six relational operators; `relop` is taken to test membership in
      this set, as its declaration comment says. */
  predicate IsRelop(t: TokenType) {
    t == LT || t == LE || t == GT || t == GE || t == EQ || t == NEQ
  }

  predicate IsMulop(t: TokenType) {
    t == TIMES || t == OVER
  }

  predicate IsAddop(t: TokenType) {
    t == PLUS || t == MINUS
  }

  /** A token together with its lexeme, as the parser sees it: the scanner
      returns the kind and leaves the text in its lexeme buffer, which the
      parser reads before asking for the next token. */
  datatype Lexed = Lexed(kind: TokenType, text: string)

  /** Statement subkinds. */
  datatype StmtKind =
    IfK | WhileK | ReturnK | AssignK | ParamsK | ParamK | FuncK | VarDeclK | CompK

  /** Expression subkinds. */
  datatype ExpKind =
    OpK | ConstK | IdK | IntK | VoidK | ArrayElemK | CallK | ArrayDeclK | ArgsK

  /** The node kind together with the subkind it selects: a statement node
      carries a statement subkind and an expression node an expression one. */
  datatype NodeKind = StmtK(stmt: StmtKind) | ExpK(exp: ExpKind)

  /** The attribute payload; `NoAttr` stands for a payload the parser never
      set. */
  datatype Attr = NoAttr | Op(op: TokenType) | Val(val: int) | Name(name: string)

  /** A tree pointer: `Null`, or a node with four child slots, a sibling
      link and an attribute. Line numbers are not part of this model. */
  datatype Tree =
    | Null
    | Node(kind: NodeKind,
           child0: Tree, child1: Tree, child2: Tree, child3: Tree,
           sibling: Tree,
           attr: Attr)

  const MAXCHILDREN: nat := 4

  /** Child slot `i` of a node. */
  function Child(n: Tree, i: nat): Tree
    requires n.Node? && i < MAXCHILDREN
  {
    if i == 0 then n.child0
    else if i == 1 then n.child1
    else if i == 2 then n.child2
    else n.child3
  }

  /** A freshly allocated node: every child slot, the sibling and the
      attribute are empty. */
  function NewNode(k: NodeKind): (n: Tree)
    ensures n.Node? && n.kind == k && n.sibling == Null && n.attr == NoAttr
    ensures forall i :: 0 <= i < MAXCHILDREN ==> Child(n, i) == Null
  {
    Node(k, Null, Null, Null, Null, Null, NoAttr)
  }

  function NewStmtNode(k: StmtKind): (n: Tree)
    ensures n == NewNode(StmtK(k))
  {
    NewNode(StmtK(k))
  }

  function NewExpNode(k: ExpKind): (n: Tree)
    ensures n == NewNode(ExpK(k))
  {
    NewNode(ExpK(k))
  }

  /** The payload a node carries is the one its subkind selects: an
      operator token for `OpK` (always set), a value for `ConstK` and a
      name for `IdK` (each possibly unset). */
  predicate AttrFits(k: NodeKind, a: Attr) {
    && (a.Op? <==> k == ExpK(OpK))
    && (a.Op? ==> IsMulop(a.op) || IsAddop(a.op) || IsRelop(a.op))
    && (a.Val? ==> k == ExpK(ConstK))
    && (a.Name? ==> k == ExpK(IdK))
  }

  /** Every node of the tree, its children and its siblings, carries a
      fitting payload. */
  predicate WellFormed(t: Tree) {
    match t
    case Null => true
    case Node(k, c0, c1, c2, c3, s, a) =>
      AttrFits(k, a) && WellFormed(c0) && WellFormed(c1) && WellFormed(c2)
      && WellFormed(c3) && WellFormed(s)
  }

  /** A tree with no sibling: what every parsing procedure returns before
      its caller links it into a sequence. */
  predicate Detached(t: Tree) {
    t.Null? || t.sibling.Null?
  }

  /** The nodes of a sibling chain, head first. */
  function Siblings(t: Tree): (r: seq<Tree>)
    ensures forall i :: 0 <= i < |r| ==> r[i].Node?
    ensures t.Null? <==> r == []
    ensures t.Node? ==> r[0] == t
  {
    match t
    case Null => []
    case Node(_, _, _, _, _, s, _) => [t] + Siblings(s)
  }

  /** Sets the sibling of `x` (a C `x->sibling = rest`); linking after a
      null pointer leaves the null pointer. */
  function Link(x: Tree, rest: Tree): (r: Tree)
    ensures x.Null? <==> r.Null?
    ensures x.Node? ==> r.Node? && r.kind == x.kind && r.sibling == rest && SameNode(r, x)
    ensures WellFormed(x) && WellFormed(rest) ==> WellFormed(r)
  {
    if x.Null? then Null else x.(sibling := rest)
  }

  /** Two nodes agree apart from their sibling link. */
  predicate SameNode(a: Tree, b: Tree) {
    a.Node? && b.Node? && a.(sibling := Null) == b.(sibling := Null)
  }
}
