/** The DFA scanner of the C-minus front end, as a pure step function over
    a flat character sequence. The source reads the input line by line into
    a buffer; since the buffer only ever hands out the next character and
    takes back the last one, the model reads straight from the sequence. */
module Scan {
  import opened Globals

  /** The states of the scanner DFA; `DONE` ends a call. */
  datatype StateType =
    START | LCOMMENT | RCOMMENT | INCOMMENT | INNUM | INID | INLE | INGE | INEQ | INNEQ | DONE

  /** A character read from the input, or end of input. */
  datatype Ch = EOF | C(c: char)

  /** What `(char)EOF` stores into the lexeme buffer: the byte 0xFF. */
  const EofChar: char := 255 as char

  function CharOf(c: Ch): char {
    if c.EOF? then EofChar else c.c
  }

  predicate IsDigit(ch: char) {
    '0' <= ch <= '9'
  }

  /** ASCII letters; locale-dependent letters are not modelled. */
  predicate IsAlpha(ch: char) {
    ('a' <= ch <= 'z') || ('A' <= ch <= 'Z')
  }

  predicate IsWhite(ch: char) {
    ch == ' ' || ch == '\t' || ch == '\n' || ch == '\r'
  }

  predicate IsDigitCh(c: Ch) {
    c.C? && IsDigit(c.c)
  }

  predicate IsAlphaCh(c: Ch) {
    c.C? && IsAlpha(c.c)
  }

  // ---------------------------------------------------------------------
  // The character source with one character of pushback

  /** The read position in the input and the end-of-input flag, which once
      set disables pushback. */
  datatype Cursor = Cursor(pos: nat, eofFlag: bool)

  /** The cursor never passes the end, and the flag is only set there. */
  predicate ValidCursor(src: seq<char>, cur: Cursor) {
    cur.pos <= |src| && (cur.eofFlag ==> cur.pos == |src|)
  }

  /** A character read and the cursor after the read. */
  datatype Read = Read(c: Ch, cur: Cursor)

  /** Reads the next character; at end of input returns `EOF` and sets the
      flag. */
  function GetNextChar(src: seq<char>, cur: Cursor): (r: Read)
    requires ValidCursor(src, cur)
    ensures ValidCursor(src, r.cur)
    ensures cur.pos < |src| ==> r == Read(C(src[cur.pos]), Cursor(cur.pos + 1, cur.eofFlag))
    ensures cur.pos == |src| ==> r == Read(EOF, Cursor(|src|, true))
  {
    if cur.pos < |src| then Read(C(src[cur.pos]), Cursor(cur.pos + 1, cur.eofFlag))
    else Read(EOF, Cursor(cur.pos, true))
  }

  /** Takes back the last character read, unless end of input was seen. */
  function UngetNextChar(cur: Cursor): (r: Cursor)
    requires cur.eofFlag || cur.pos > 0
    ensures cur.eofFlag ==> r == cur
    ensures !cur.eofFlag ==> r == Cursor(cur.pos - 1, false)
  {
    if !cur.eofFlag then Cursor(cur.pos - 1, cur.eofFlag) else cur
  }

  /** Pushing back right after a read restores the cursor, unless the read
      hit end of input, in which case pushback does nothing. */
  lemma PushbackUndoesRead(src: seq<char>, cur: Cursor)
    requires ValidCursor(src, cur)
    ensures var r := GetNextChar(src, cur);
      (r.c.C? ==> UngetNextChar(r.cur) == cur) &&
      (r.c.EOF? ==> UngetNextChar(r.cur) == r.cur == Cursor(|src|, true))
  {
  }

  // ---------------------------------------------------------------------
  // Reserved words

  /** An entry of the keyword table: a reserved word and its token. */
  datatype Keyword = Keyword(word: string, tok: TokenType)

  /** Entry `i` of the keyword table, in the order of the source. */
  function Reserved(i: nat): Keyword
    requires i < MAXRESERVED
  {
    match i
    case 0 => Keyword("if", IF)
    case 1 => Keyword("else", ELSE)
    case 2 => Keyword("int", INT)
    case 3 => Keyword("return", RETURN)
    case 4 => Keyword("void", VOID)
    case _ => Keyword("while", WHILE)
  }

  /** The linear search from entry `i` on. */
  function LookupFrom(s: string, i: nat): (r: TokenType)
    requires i <= MAXRESERVED
    ensures r == ID || exists j :: i <= j < MAXRESERVED && Reserved(j) == Keyword(s, r)
    ensures r == ID || IsReservedToken(r)
    ensures r == ID <==> forall j :: i <= j < MAXRESERVED ==> Reserved(j).word != s
    decreases MAXRESERVED - i
  {
    if i == MAXRESERVED then ID
    else if Reserved(i).word == s then Reserved(i).tok
    else LookupFrom(s, i + 1)
  }

  /** The token of a completed identifier lexeme: the keyword's token when
      the lexeme is in the table, `ID` otherwise. */
  function ReservedLookup(s: string): (r: TokenType)
    ensures r == ID || exists j :: 0 <= j < MAXRESERVED && Reserved(j) == Keyword(s, r)
    ensures r == ID || IsReservedToken(r)
    ensures r == ID <==> forall j :: 0 <= j < MAXRESERVED ==> Reserved(j).word != s
  {
    LookupFrom(s, 0)
  }

  // ---------------------------------------------------------------------
  // The DFA

  /** One transition of the DFA on the character just read: either go on
      in a state (saving the character or not, and on entering a comment
      taking the `/` back out of the lexeme), or finish with a token (saving
      the character or not, pushing it back or not). */
  datatype Move =
    | Goto(next: StateType, save: bool, clear: bool)
    | Emit(tok: TokenType, save: bool, unget: bool)

  /** The token of a character that stands for itself from `START`. */
  function PunctToken(ch: char): TokenType {
    match ch
    case '+' => PLUS
    case '-' => MINUS
    case '*' => TIMES
    case '(' => LPAREN
    case ')' => RPAREN
    case ';' => SEMI
    case ',' => COMMA
    case '[' => LBRACKET
    case ']' => RBRACKET
    case '{' => LBRACE
    case '}' => RBRACE
    case _ => ERROR
  }

  function Transition(state: StateType, c: Ch): (r: Move)
    requires state != DONE
    ensures r.Goto? ==> r.next != DONE
    ensures r.Goto? && r.clear ==> state == LCOMMENT && r.next == INCOMMENT && !r.save
    ensures r.Goto? && r.next == LCOMMENT ==> state == START && r.save && c == C('/')
    ensures r.Goto? && (r.next == START || r.next == INCOMMENT || r.next == RCOMMENT) ==>
      !r.save && (r.clear || state == START || state == INCOMMENT || state == RCOMMENT)
    ensures r.Goto? ==> c.C?
    ensures r.Emit? && r.tok == ENDFILE ==>
      c.EOF? && !r.save && !r.unget && (state == START || state == INCOMMENT || state == RCOMMENT)
    ensures r.Emit? && state == START && r.tok != ENDFILE ==> c.C? && !r.unget
    ensures r.Emit? && r.tok == ID ==> state == INID
  {
    match state
    case START =>
      if IsDigitCh(c) then Goto(INNUM, true, false)
      else if IsAlphaCh(c) then Goto(INID, true, false)
      else if c == C('<') then Goto(INLE, true, false)
      else if c == C('>') then Goto(INGE, true, false)
      else if c == C('~') then Goto(INNEQ, true, false)
      else if c == C('=') then Goto(INEQ, true, false)
      else if c == C('/') then Goto(LCOMMENT, true, false)
      else if c.C? && IsWhite(c.c) then Goto(START, false, false)
      else if c.EOF? then Emit(ENDFILE, false, false)
      else Emit(PunctToken(c.c), true, false)
    case INEQ => if c == C('=') then Emit(EQ, true, false) else Emit(ASSIGN, false, true)
    case INNEQ => if c == C('=') then Emit(NEQ, true, false) else Emit(ERROR, false, true)
    case INLE => if c == C('=') then Emit(LE, true, false) else Emit(LT, false, true)
    case INGE => if c == C('=') then Emit(GE, true, false) else Emit(GT, false, true)
    case INNUM => if IsDigitCh(c) then Goto(INNUM, true, false) else Emit(NUM, false, true)
    case INID => if IsAlphaCh(c) then Goto(INID, true, false) else Emit(ID, false, true)
    case LCOMMENT =>
      // the lookahead is pushed back but, unlike the other pushbacks,
      // still saved into the lexeme
      if c == C('*') then Goto(INCOMMENT, false, true) else Emit(OVER, true, true)
    case INCOMMENT =>
      if c.EOF? then Emit(ENDFILE, false, false)
      else if c == C('*') then Goto(RCOMMENT, false, false)
      else Goto(INCOMMENT, false, false)
    case RCOMMENT =>
      if c.EOF? then Emit(ENDFILE, false, false)
      else if c == C('*') then Goto(RCOMMENT, false, false)
      else if c == C('/') then Goto(START, false, false)
      else Goto(INCOMMENT, false, false)
  }

  /** Appends a character to the lexeme buffer while its index is at most
      `maxTokenLen`, so the buffer keeps at most `maxTokenLen + 1`
      characters. */
  function Save(buf: seq<char>, c: Ch, save: bool, maxTokenLen: nat): (r: seq<char>)
    ensures save && |buf| <= maxTokenLen ==> r == buf + [CharOf(c)]
    ensures !(save && |buf| <= maxTokenLen) ==> r == buf
  {
    if save && |buf| <= maxTokenLen then buf + [CharOf(c)] else buf
  }

  /** The scanner in the middle of a call: state, cursor, lexeme buffer. */
  datatype Cfg = Cfg(state: StateType, cur: Cursor, buf: seq<char>)

  /** What a call returns: the token, the lexeme buffer, the cursor. */
  datatype Scanned = Scanned(tok: TokenType, lexeme: seq<char>, cur: Cursor)

  datatype StepResult = Continue(cfg: Cfg) | Finished(res: Scanned)

  /** What holds of the buffer in each state: empty at `START` and inside
      comments, exactly the `/` in `LCOMMENT`, never longer than the cap. */
  predicate Inv(cfg: Cfg, maxTokenLen: nat) {
    && (cfg.state == START || cfg.state == INCOMMENT || cfg.state == RCOMMENT ==> cfg.buf == [])
    && (cfg.state == LCOMMENT ==> cfg.buf == ['/'])
    && |cfg.buf| <= maxTokenLen + 1
  }

  /** One iteration of the scanning loop. */
  function Step(src: seq<char>, maxTokenLen: nat, cfg: Cfg): (r: StepResult)
    requires ValidCursor(src, cfg.cur) && cfg.state != DONE && Inv(cfg, maxTokenLen)
    ensures r.Continue? ==>
      && cfg.cur.pos < |src|
      && r.cfg.cur == Cursor(cfg.cur.pos + 1, cfg.cur.eofFlag)
      && r.cfg.state != DONE
      && Inv(r.cfg, maxTokenLen)
    ensures r.Finished? ==>
      && ValidCursor(src, r.res.cur)
      && |r.res.lexeme| <= maxTokenLen + 1
      && (r.res.tok == ENDFILE ==> r.res.cur == Cursor(|src|, true) && r.res.lexeme == [])
      && (r.res.tok != ENDFILE ==>
            r.res.cur.pos >= cfg.cur.pos + (if cfg.state == START then 1 else 0))
  {
    var Read(c, cur1) := GetNextChar(src, cfg.cur);
    match Transition(cfg.state, c)
    case Goto(next, save, clear) =>
      var buf1 := if clear then cfg.buf[..|cfg.buf| - 1] else cfg.buf;
      Continue(Cfg(next, cur1, Save(buf1, c, save, maxTokenLen)))
    case Emit(tok, save, unget) =>
      var cur2 := if unget then UngetNextChar(cur1) else cur1;
      var buf1 := Save(cfg.buf, c, save, maxTokenLen);
      Finished(Scanned(tok, buf1, cur2))
  }

  /** Iterates the loop until the DFA reaches `DONE`; an identifier comes
      back as `ID`, before the keyword lookup. */
  function Run(src: seq<char>, maxTokenLen: nat, cfg: Cfg): (r: Scanned)
    requires ValidCursor(src, cfg.cur) && cfg.state != DONE && Inv(cfg, maxTokenLen)
    ensures ValidCursor(src, r.cur)
    ensures |r.lexeme| <= maxTokenLen + 1
    ensures r.tok == ENDFILE ==> r.cur == Cursor(|src|, true) && r.lexeme == []
    ensures r.tok != ENDFILE ==> r.cur.pos >= cfg.cur.pos + (if cfg.state == START then 1 else 0)
    decreases |src| - cfg.cur.pos
  {
    match Step(src, maxTokenLen, cfg)
    case Finished(res) => res
    case Continue(next) => Run(src, maxTokenLen, next)
  }

  /** What the loop's last iteration does to a finished identifier: looks
      its lexeme up in the keyword table. */
  function LookUpIdentifier(r: Scanned): (s: Scanned)
    ensures s.lexeme == r.lexeme && s.cur == r.cur
    ensures r.tok != ID ==> s == r
    ensures r.tok == ID ==> s.tok == ReservedLookup(r.lexeme)
  {
    if r.tok == ID then r.(tok := ReservedLookup(r.lexeme)) else r
  }

  /** `getToken`: scans one token from the cursor. A call that returns a
      token other than `ENDFILE` moves the cursor forward; `ENDFILE` comes
      only at end of input, where every call returns it. */
  function GetToken(src: seq<char>, maxTokenLen: nat, cur: Cursor): (r: Scanned)
    requires ValidCursor(src, cur)
    ensures ValidCursor(src, r.cur)
    ensures |r.lexeme| <= maxTokenLen + 1
    ensures r.tok != ENDFILE ==> cur.pos < r.cur.pos
    ensures r.tok == ENDFILE ==> r.cur == Cursor(|src|, true) && r.lexeme == []
    ensures cur.pos == |src| ==> r == Scanned(ENDFILE, [], Cursor(|src|, true))
  {
    LookUpIdentifier(Run(src, maxTokenLen, Cfg(START, cur, [])))
  }

  /** The whole token stream, without the `ENDFILE` that ends it (and that
      every later call would repeat). */
  function TokenizeFrom(src: seq<char>, maxTokenLen: nat, cur: Cursor): (ts: seq<Lexed>)
    requires ValidCursor(src, cur)
    ensures forall i :: 0 <= i < |ts| ==> ts[i].kind != ENDFILE
    ensures |ts| <= |src| - cur.pos
    decreases |src| - cur.pos
  {
    var r := GetToken(src, maxTokenLen, cur);
    if r.tok == ENDFILE then []
    else [Lexed(r.tok, r.lexeme)] + TokenizeFrom(src, maxTokenLen, r.cur)
  }

  function Tokenize(src: seq<char>, maxTokenLen: nat): seq<Lexed> {
    TokenizeFrom(src, maxTokenLen, Cursor(0, false))
  }
}
