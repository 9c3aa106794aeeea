/** What the scanner promises about the token it returns for each kind of
    input, proved of the DFA model. */
module ScanProps {
  import opened Globals
  import opened Scan

  /** The first `n` characters of `s`: the part of a lexeme the buffer
      keeps. */
  function Trunc(s: seq<char>, n: nat): (r: seq<char>)
    ensures |r| <= n && r <= s
    ensures |s| <= n ==> r == s
  {
    if |s| <= n then s else s[..n]
  }

  /** The cursor after a pushback at position `j`: back on `j`, or at end of
      input with the flag set when the lookahead was end of input. */
  function CursorAt(src: seq<char>, j: nat): Cursor
    requires j <= |src|
  {
    if j < |src| then Cursor(j, false) else Cursor(|src|, true)
  }

  predicate InClass(ch: char, digits: bool) {
    if digits then IsDigit(ch) else IsAlpha(ch)
  }

  /** The end of the maximal run of digits (or letters) starting at `i`. */
  function RunEnd(src: seq<char>, i: nat, digits: bool): (j: nat)
    requires i <= |src|
    ensures i <= j <= |src|
    ensures forall k :: i <= k < j ==> InClass(src[k], digits)
    ensures j == |src| || !InClass(src[j], digits)
    decreases |src| - i
  {
    if i == |src| || !InClass(src[i], digits) then i else RunEnd(src, i + 1, digits)
  }

  // ---------------------------------------------------------------------
  // Unfolding the scanning loop one iteration at a time

  lemma RunContinue(src: seq<char>, m: nat, cfg: Cfg, next: Cfg)
    requires ValidCursor(src, cfg.cur) && cfg.state != DONE && Inv(cfg, m)
    requires Step(src, m, cfg) == Continue(next)
    ensures Run(src, m, cfg) == Run(src, m, next)
  {
  }

  lemma RunFinished(src: seq<char>, m: nat, cfg: Cfg, res: Scanned)
    requires ValidCursor(src, cfg.cur) && cfg.state != DONE && Inv(cfg, m)
    requires Step(src, m, cfg) == Finished(res)
    ensures Run(src, m, cfg) == res
  {
  }

  // ---------------------------------------------------------------------
  // Reserved words

  /** The table's words are distinct, and so are its tokens, which are
      exactly the reserved-word tokens. */
  lemma ReservedTable()
    ensures forall i, j :: 0 <= i < j < MAXRESERVED ==>
      Reserved(i).word != Reserved(j).word && Reserved(i).tok != Reserved(j).tok
    ensures forall t :: IsReservedToken(t) <==> exists i :: 0 <= i < MAXRESERVED && Reserved(i).tok == t
  {
    assert Reserved(0).tok == IF && Reserved(1).tok == ELSE && Reserved(2).tok == INT;
    assert Reserved(3).tok == RETURN && Reserved(4).tok == VOID && Reserved(5).tok == WHILE;
  }

  /** Each reserved token comes back for exactly its own, case-sensitive
      word, and every other string is an identifier. */
  lemma ReservedLookupExact(s: string)
    ensures ReservedLookup(s) == IF <==> s == "if"
    ensures ReservedLookup(s) == ELSE <==> s == "else"
    ensures ReservedLookup(s) == INT <==> s == "int"
    ensures ReservedLookup(s) == RETURN <==> s == "return"
    ensures ReservedLookup(s) == VOID <==> s == "void"
    ensures ReservedLookup(s) == WHILE <==> s == "while"
    ensures ReservedLookup(s) == ID <==> s !in {"if", "else", "int", "return", "void", "while"}
  {
    var r := ReservedLookup(s);
    if r != ID {
      var j :| 0 <= j < MAXRESERVED && Reserved(j) == Keyword(s, r);
      assert j == 0 || j == 1 || j == 2 || j == 3 || j == 4 || j == 5;
    } else {
      assert forall j :: 0 <= j < MAXRESERVED ==> Reserved(j).word != s;
      assert Reserved(0).word == "if" && Reserved(1).word == "else" && Reserved(2).word == "int";
      assert Reserved(3).word == "return" && Reserved(4).word == "void" && Reserved(5).word == "while";
    }
  }

  lemma ReservedLookupIsCaseSensitive()
    ensures ReservedLookup("If") == ID && ReservedLookup("WHILE") == ID && ReservedLookup("Int") == ID
  {
    ReservedLookupExact("If");
    ReservedLookupExact("WHILE");
    ReservedLookupExact("Int");
  }

  // ---------------------------------------------------------------------
  // Numbers and identifiers

  lemma {:induction false} TruncAppend(x: seq<char>, y: seq<char>, n: nat)
    ensures Trunc(Trunc(x, n) + y, n) == Trunc(x + y, n)
  {
    if |x| > n {
      assert (x + y)[..n] == x[..n];
    }
  }

  function RunState(digits: bool): StateType {
    if digits then INNUM else INID
  }

  /** The token a completed run yields, before the keyword lookup. */
  function RunToken(digits: bool): TokenType {
    if digits then NUM else ID
  }

  /** One iteration inside a run: a character of the run is saved. */
  lemma RunStepInside(src: seq<char>, m: nat, digits: bool, q: nat, buf: seq<char>)
    requires q < |src| && |buf| <= m + 1 && InClass(src[q], digits)
    ensures Run(src, m, Cfg(RunState(digits), Cursor(q, false), buf))
         == Run(src, m, Cfg(RunState(digits), Cursor(q + 1, false), Trunc(buf + [src[q]], m + 1)))
  {
    var cfg := Cfg(RunState(digits), Cursor(q, false), buf);
    var next := Cfg(RunState(digits), Cursor(q + 1, false), Trunc(buf + [src[q]], m + 1));
    assert Step(src, m, cfg) == Continue(next);
    RunContinue(src, m, cfg, next);
  }

  /** The iteration that ends a run: the lookahead is pushed back unsaved. */
  lemma RunStepEnd(src: seq<char>, m: nat, digits: bool, q: nat, buf: seq<char>)
    requires q <= |src| && |buf| <= m + 1 && (q == |src| || !InClass(src[q], digits))
    ensures Run(src, m, Cfg(RunState(digits), Cursor(q, false), buf))
         == Scanned(RunToken(digits), buf, CursorAt(src, q))
  {
    var cfg := Cfg(RunState(digits), Cursor(q, false), buf);
    RunFinished(src, m, cfg, Scanned(RunToken(digits), buf, CursorAt(src, q)));
  }

  /** Saving one more character of the run commutes with the cap. */
  lemma RunLexemeStep(buf: seq<char>, src: seq<char>, q: nat, j: nat, n: nat)
    requires q < j <= |src|
    ensures Trunc(Trunc(buf + [src[q]], n) + src[q + 1..j], n) == Trunc(buf + src[q..j], n)
  {
    TruncAppend(buf + [src[q]], src[q + 1..j], n);
    assert buf + [src[q]] + src[q + 1..j] == buf + src[q..j];
  }

  /** What `RunInRun` states, for the run in state `digits` with buffer
      `buf` at position `q`. */
  predicate RunsToEnd(src: seq<char>, m: nat, digits: bool, q: nat, buf: seq<char>)
    requires q <= |src| && |buf| <= m + 1
  {
    var j := RunEnd(src, q, digits);
    var lex := Trunc(buf + src[q..j], m + 1);
    Run(src, m, Cfg(RunState(digits), Cursor(q, false), buf)) == Scanned(RunToken(digits), lex, CursorAt(src, j))
  }

  /** The inductive step of `RunInRun`: a run character is saved and the
      rest of the run follows. */
  lemma RunsToEndStep(src: seq<char>, m: nat, digits: bool, q: nat, buf: seq<char>)
    requires q < |src| && |buf| <= m + 1 && InClass(src[q], digits)
    requires RunsToEnd(src, m, digits, q + 1, Trunc(buf + [src[q]], m + 1))
    ensures RunsToEnd(src, m, digits, q, buf)
  {
    var j := RunEnd(src, q, digits);
    assert j == RunEnd(src, q + 1, digits);
    RunLexemeStep(buf, src, q, j, m + 1);
    RunStepInside(src, m, digits, q, buf);
  }

  /** The base case of `RunInRun`: the run has ended. */
  lemma RunsToEndBase(src: seq<char>, m: nat, digits: bool, q: nat, buf: seq<char>)
    requires q <= |src| && |buf| <= m + 1 && !(q < |src| && InClass(src[q], digits))
    ensures RunsToEnd(src, m, digits, q, buf)
  {
    assert RunEnd(src, q, digits) == q;
    assert buf + src[q..q] == buf;
    RunStepEnd(src, m, digits, q, buf);
  }

  /** From `INNUM` or `INID` with buffer `buf` at position `q`, the loop
      saves the rest of the run (up to the cap) and stops on the first
      character outside it, which it pushes back. */
  lemma {:induction false} RunInRun(src: seq<char>, m: nat, digits: bool, q: nat, buf: seq<char>)
    requires q <= |src| && |buf| <= m + 1
    ensures RunsToEnd(src, m, digits, q, buf)
    decreases |src| - q
  {
    if q < |src| && InClass(src[q], digits) {
      RunInRun(src, m, digits, q + 1, Trunc(buf + [src[q]], m + 1));
      RunsToEndStep(src, m, digits, q, buf);
    } else {
      RunsToEndBase(src, m, digits, q, buf);
    }
  }

  /** The first iteration of a call on a digit or letter enters the run. */
  lemma RunStepEnter(src: seq<char>, m: nat, digits: bool, pos: nat)
    requires pos < |src| && InClass(src[pos], digits)
    ensures Run(src, m, Cfg(START, Cursor(pos, false), []))
         == Run(src, m, Cfg(RunState(digits), Cursor(pos + 1, false), [src[pos]]))
  {
    var cfg := Cfg(START, Cursor(pos, false), []);
    var next := Cfg(RunState(digits), Cursor(pos + 1, false), [src[pos]]);
    assert Step(src, m, cfg) == Continue(next);
    RunContinue(src, m, cfg, next);
  }

  /** The loop of a call on a digit or letter reads the whole run. */
  lemma RunScan(src: seq<char>, m: nat, digits: bool, pos: nat)
    requires pos < |src| && InClass(src[pos], digits)
    ensures var j := RunEnd(src, pos, digits);
      var lex := Trunc(src[pos..j], m + 1);
      Run(src, m, Cfg(START, Cursor(pos, false), [])) == Scanned(RunToken(digits), lex, CursorAt(src, j))
  {
    var j := RunEnd(src, pos, digits);
    assert j == RunEnd(src, pos + 1, digits);
    RunStepEnter(src, m, digits, pos);
    RunInRun(src, m, digits, pos + 1, [src[pos]]);
    assert [src[pos]] + src[pos + 1..j] == src[pos..j];
  }

  /** A digit starts a NUM token whose lexeme is the maximal digit run
      (cut to the buffer size); the first non-digit is pushed back. */
  lemma NumberScan(src: seq<char>, m: nat, pos: nat)
    requires pos < |src| && IsDigit(src[pos])
    ensures var j := RunEnd(src, pos, true);
      GetToken(src, m, Cursor(pos, false)) == Scanned(NUM, Trunc(src[pos..j], m + 1), CursorAt(src, j))
  {
    RunScan(src, m, true, pos);
  }

  /** A letter starts an identifier made of the maximal letter run (digits
      do not continue it); only the complete lexeme is looked up in the
      keyword table. */
  lemma IdentifierScan(src: seq<char>, m: nat, pos: nat)
    requires pos < |src| && IsAlpha(src[pos])
    ensures var j := RunEnd(src, pos, false);
      var lex := Trunc(src[pos..j], m + 1);
      GetToken(src, m, Cursor(pos, false)) == Scanned(ReservedLookup(lex), lex, CursorAt(src, j))
  {
    RunScan(src, m, false, pos);
  }

  // ---------------------------------------------------------------------
  // Operators

  /** The token of `<`, `>`, `=` or `~` followed by `=`. */
  function PairToken(ch: char): TokenType {
    if ch == '<' then LE else if ch == '>' then GE else if ch == '=' then EQ else NEQ
  }

  /** The token of `<`, `>`, `=` or `~` not followed by `=`. */
  function LoneToken(ch: char): TokenType {
    if ch == '<' then LT else if ch == '>' then GT else if ch == '=' then ASSIGN else ERROR
  }

  /** `<`, `>`, `=` and `~` followed by `=` consume both characters; otherwise
      they yield the one-character token (an error for `~`), push the
      lookahead back and do not save it. */
  lemma TwoCharOperators(src: seq<char>, m: nat, pos: nat)
    requires pos < |src| && src[pos] in {'<', '>', '=', '~'}
    ensures var ch := src[pos];
      if pos + 1 < |src| && src[pos + 1] == '=' then
        GetToken(src, m, Cursor(pos, false)) == Scanned(PairToken(ch), Trunc([ch, '='], m + 1), Cursor(pos + 2, false))
      else
        GetToken(src, m, Cursor(pos, false)) == Scanned(LoneToken(ch), [ch], CursorAt(src, pos + 1))
  {
    var ch := src[pos];
    var st := if ch == '<' then INLE else if ch == '>' then INGE else if ch == '=' then INEQ else INNEQ;
    var cfg := Cfg(START, Cursor(pos, false), []);
    var cfg1 := Cfg(st, Cursor(pos + 1, false), [ch]);
    assert Step(src, m, cfg) == Continue(cfg1);
    RunContinue(src, m, cfg, cfg1);
    if pos + 1 < |src| && src[pos + 1] == '=' {
      RunFinished(src, m, cfg1, Scanned(PairToken(ch), Trunc([ch, '='], m + 1), Cursor(pos + 2, false)));
    } else {
      RunFinished(src, m, cfg1, Scanned(LoneToken(ch), [ch], CursorAt(src, pos + 1)));
    }
  }

  /** `/` not followed by `*` is the division operator; the lookahead is
      pushed back but, since saving stays on, it is also in the lexeme (as
      the byte 0xFF at end of input). */
  lemma SlashScan(src: seq<char>, m: nat, pos: nat)
    requires pos < |src| && src[pos] == '/'
    requires !(pos + 1 < |src| && src[pos + 1] == '*')
    ensures var next := if pos + 1 < |src| then src[pos + 1] else EofChar;
      GetToken(src, m, Cursor(pos, false)) == Scanned(OVER, Trunc(['/', next], m + 1), CursorAt(src, pos + 1))
  {
    var cfg := Cfg(START, Cursor(pos, false), []);
    var cfg1 := Cfg(LCOMMENT, Cursor(pos + 1, false), ['/']);
    assert Step(src, m, cfg) == Continue(cfg1);
    RunContinue(src, m, cfg, cfg1);
    var next := if pos + 1 < |src| then src[pos + 1] else EofChar;
    RunFinished(src, m, cfg1, Scanned(OVER, Trunc(['/', next], m + 1), CursorAt(src, pos + 1)));
  }

  /** The characters that stand for themselves. */
  predicate IsSelfChar(ch: char) {
    ch in {'+', '-', '*', '(', ')', ';', ',', '[', ']', '{', '}'}
  }

  /** Each self-standing character has its own token, distinct from the
      others' and from `ERROR`. */
  lemma PunctTokensDistinct()
    ensures forall a, b :: IsSelfChar(a) && IsSelfChar(b) && a != b ==> PunctToken(a) != PunctToken(b)
    ensures forall a :: IsSelfChar(a) ==> PunctToken(a) != ERROR
  {
  }

  lemma PunctScan(src: seq<char>, m: nat, pos: nat)
    requires pos < |src| && IsSelfChar(src[pos])
    ensures GetToken(src, m, Cursor(pos, false)) == Scanned(PunctToken(src[pos]), [src[pos]], Cursor(pos + 1, false))
  {
    var cfg := Cfg(START, Cursor(pos, false), []);
    RunFinished(src, m, cfg, Scanned(PunctToken(src[pos]), [src[pos]], Cursor(pos + 1, false)));
  }

  /** The characters that can begin something the DFA recognises. */
  predicate StartsToken(ch: char) {
    IsDigit(ch) || IsAlpha(ch) || ch in {'<', '>', '~', '=', '/'} || IsWhite(ch) || IsSelfChar(ch)
  }

  /** Any other character is consumed and yields `ERROR`. */
  lemma OtherCharScan(src: seq<char>, m: nat, pos: nat)
    requires pos < |src| && !StartsToken(src[pos])
    ensures GetToken(src, m, Cursor(pos, false)) == Scanned(ERROR, [src[pos]], Cursor(pos + 1, false))
  {
    var cfg := Cfg(START, Cursor(pos, false), []);
    assert PunctToken(src[pos]) == ERROR;
    RunFinished(src, m, cfg, Scanned(ERROR, [src[pos]], Cursor(pos + 1, false)));
  }

  // ---------------------------------------------------------------------
  // Whitespace and comments

  /** Whitespace is skipped without a trace: the call returns what a call
      one character later would. */
  lemma WhitespaceSkipped(src: seq<char>, m: nat, pos: nat)
    requires pos < |src| && IsWhite(src[pos])
    ensures GetToken(src, m, Cursor(pos, false)) == GetToken(src, m, Cursor(pos + 1, false))
  {
    var cfg := Cfg(START, Cursor(pos, false), []);
    assert Step(src, m, cfg) == Continue(Cfg(START, Cursor(pos + 1, false), []));
    RunContinue(src, m, cfg, Cfg(START, Cursor(pos + 1, false), []));
  }

  /** A `*` `/` pair starts at `k`. */
  predicate IsClose(src: seq<char>, k: nat) {
    k + 1 < |src| && src[k] == '*' && src[k + 1] == '/'
  }

  /** The index of the first `*` `/` pair starting at or after `i`: the reference
      definition of where a comment ends (comments do not nest). */
  function FindClose(src: seq<char>, i: nat): (r: Option<nat>)
    requires i <= |src|
    ensures r.Some? ==> i <= r.value && IsClose(src, r.value)
    ensures r.Some? ==> forall k :: i <= k < r.value ==> !IsClose(src, k)
    ensures r.None? ==> forall k :: i <= k ==> !IsClose(src, k)
    decreases |src| - i
  {
    if i + 1 >= |src| then None
    else if IsClose(src, i) then Some(i)
    else FindClose(src, i + 1)
  }

  /** The search stops on a `*` `/` pair. */
  lemma FindCloseHere(src: seq<char>, i: nat)
    requires i + 1 < |src| && src[i] == '*' && src[i + 1] == '/'
    ensures FindClose(src, i) == Some(i)
  {
  }

  /** Away from a `*` `/` pair the search moves on by one. */
  lemma FindCloseSkip(src: seq<char>, i: nat)
    requires i + 1 < |src| && !IsClose(src, i)
    ensures FindClose(src, i) == FindClose(src, i + 1)
  {
  }

  /** What a call returns once a comment whose body starts at some
      position has been consumed: the next token after the closing `*` `/`, or
      `ENDFILE` (and no error) when the comment is never closed. */
  function AfterComment(src: seq<char>, m: nat, close: Option<nat>): Scanned
    requires close.Some? ==> close.value + 2 <= |src|
  {
    match close
    case None => Scanned(ENDFILE, [], Cursor(|src|, true))
    case Some(k) => GetToken(src, m, Cursor(k + 2, false))
  }

  /** What the loop returns once a comment has been consumed: it goes on
      from `START` after the closing pair, or stops with `ENDFILE`. */
  function LoopAfterComment(src: seq<char>, m: nat, close: Option<nat>): Scanned
    requires close.Some? ==> close.value + 2 <= |src|
  {
    match close
    case None => Scanned(ENDFILE, [], Cursor(|src|, true))
    case Some(k) => Run(src, m, Cfg(START, Cursor(k + 2, false), []))
  }

  /** What the comment lemmas state: from `state` at position `i` the
      loop ends as the comment closed by the first `*` `/` pair at or after
      `from` does. */
  predicate SkipsComment(src: seq<char>, m: nat, state: StateType, i: nat, from: nat)
    requires i <= |src| && from <= |src| && (state == INCOMMENT || state == RCOMMENT)
  {
    Run(src, m, Cfg(state, Cursor(i, false), [])) == LoopAfterComment(src, m, FindClose(src, from))
  }

  /** One iteration inside a comment body: `*` may start the close,
      anything else stays in the body. */
  lemma InCommentStep(src: seq<char>, m: nat, i: nat)
    requires i < |src|
    ensures src[i] == '*' ==>
      Run(src, m, Cfg(INCOMMENT, Cursor(i, false), [])) == Run(src, m, Cfg(RCOMMENT, Cursor(i + 1, false), []))
    ensures src[i] != '*' ==>
      Run(src, m, Cfg(INCOMMENT, Cursor(i, false), [])) == Run(src, m, Cfg(INCOMMENT, Cursor(i + 1, false), []))
  {
    var cfg := Cfg(INCOMMENT, Cursor(i, false), []);
    var next := Cfg(if src[i] == '*' then RCOMMENT else INCOMMENT, Cursor(i + 1, false), []);
    assert Step(src, m, cfg) == Continue(next);
    RunContinue(src, m, cfg, next);
  }

  /** One iteration after a `*` in a comment: another `*` keeps the close
      pending, `/` ends the comment, anything else returns to the body. */
  lemma RCommentStep(src: seq<char>, m: nat, i: nat)
    requires i < |src|
    ensures var next := if src[i] == '*' then RCOMMENT else if src[i] == '/' then START else INCOMMENT;
      Run(src, m, Cfg(RCOMMENT, Cursor(i, false), [])) == Run(src, m, Cfg(next, Cursor(i + 1, false), []))
  {
    var cfg := Cfg(RCOMMENT, Cursor(i, false), []);
    var next := Cfg(if src[i] == '*' then RCOMMENT else if src[i] == '/' then START else INCOMMENT, Cursor(i + 1, false), []);
    assert Step(src, m, cfg) == Continue(next);
    RunContinue(src, m, cfg, next);
  }

  /** End of input inside a comment gives `ENDFILE`. */
  lemma CommentAtEnd(src: seq<char>, m: nat, state: StateType, from: nat)
    requires state == INCOMMENT || state == RCOMMENT
    requires from <= |src| && from + 1 >= |src|
    ensures SkipsComment(src, m, state, |src|, from)
  {
    RunFinished(src, m, Cfg(state, Cursor(|src|, false), []), Scanned(ENDFILE, [], Cursor(|src|, true)));
  }

  lemma InCommentOnStar(src: seq<char>, m: nat, i: nat)
    requires i < |src| && src[i] == '*' && SkipsComment(src, m, RCOMMENT, i + 1, i)
    ensures SkipsComment(src, m, INCOMMENT, i, i)
  {
    InCommentStep(src, m, i);
  }

  lemma InCommentOnOther(src: seq<char>, m: nat, i: nat)
    requires i < |src| && src[i] != '*' && SkipsComment(src, m, INCOMMENT, i + 1, i + 1)
    ensures SkipsComment(src, m, INCOMMENT, i, i)
  {
    InCommentStep(src, m, i);
    if i + 1 < |src| {
      FindCloseSkip(src, i);
    }
  }

  lemma RCommentOnStar(src: seq<char>, m: nat, i: nat)
    requires 1 <= i < |src| && src[i - 1] == '*' && src[i] == '*'
    requires SkipsComment(src, m, RCOMMENT, i + 1, i)
    ensures SkipsComment(src, m, RCOMMENT, i, i - 1)
  {
    RCommentStep(src, m, i);
    FindCloseSkip(src, i - 1);
  }

  lemma RCommentOnSlash(src: seq<char>, m: nat, i: nat)
    requires 1 <= i < |src| && src[i - 1] == '*' && src[i] == '/'
    ensures SkipsComment(src, m, RCOMMENT, i, i - 1)
  {
    RCommentStep(src, m, i);
    FindCloseHere(src, i - 1);
  }

  lemma RCommentOnOther(src: seq<char>, m: nat, i: nat)
    requires 1 <= i < |src| && src[i - 1] == '*' && src[i] != '*' && src[i] != '/'
    requires SkipsComment(src, m, INCOMMENT, i + 1, i + 1)
    ensures SkipsComment(src, m, RCOMMENT, i, i - 1)
  {
    RCommentStep(src, m, i);
    FindCloseSkip(src, i - 1);
    if i + 1 < |src| {
      FindCloseSkip(src, i);
    }
  }

  /** Inside a comment body, the loop ends as the first `*` `/` pair from
      `i` on says. */
  lemma {:induction false} InCommentRun(src: seq<char>, m: nat, i: nat)
    requires i <= |src|
    ensures SkipsComment(src, m, INCOMMENT, i, i)
    decreases |src| - i, 1
  {
    if i == |src| {
      CommentAtEnd(src, m, INCOMMENT, i);
    } else if src[i] == '*' {
      RCommentRun(src, m, i + 1);
      InCommentOnStar(src, m, i);
    } else {
      InCommentRun(src, m, i + 1);
      InCommentOnOther(src, m, i);
    }
  }

  /** Right after a `*` of a comment body, the loop ends as the first
      `*` `/` pair from that star on says. */
  lemma {:induction false} RCommentRun(src: seq<char>, m: nat, i: nat)
    requires 1 <= i <= |src| && src[i - 1] == '*'
    ensures SkipsComment(src, m, RCOMMENT, i, i - 1)
    decreases |src| - i, 0
  {
    if i == |src| {
      CommentAtEnd(src, m, RCOMMENT, i - 1);
    } else if src[i] == '*' {
      RCommentRun(src, m, i + 1);
      RCommentOnStar(src, m, i);
    } else if src[i] == '/' {
      RCommentOnSlash(src, m, i);
    } else {
      InCommentRun(src, m, i + 1);
      RCommentOnOther(src, m, i);
    }
  }

  /** A comment produces no token and contributes nothing to a
      lexeme: it closes at the first `*` `/` pair after the opening
      `/` `*` (so a run of stars before the slash closes it too), and end of input inside it gives `ENDFILE`
      without an error. */
  lemma CommentSkipped(src: seq<char>, m: nat, pos: nat)
    requires pos + 1 < |src| && src[pos] == '/' && src[pos + 1] == '*'
    ensures GetToken(src, m, Cursor(pos, false)) == AfterComment(src, m, FindClose(src, pos + 2))
  {
    CommentOpens(src, m, pos);
    InCommentRun(src, m, pos + 2);
    match FindClose(src, pos + 2)
    case None =>
    case Some(k) =>
  }

  /** The first two iterations on `/` `*` enter the comment body and take
      the `/` back out of the lexeme. */
  lemma CommentOpens(src: seq<char>, m: nat, pos: nat)
    requires pos + 1 < |src| && src[pos] == '/' && src[pos + 1] == '*'
    ensures Run(src, m, Cfg(START, Cursor(pos, false), [])) == Run(src, m, Cfg(INCOMMENT, Cursor(pos + 2, false), []))
  {
    var cfg := Cfg(START, Cursor(pos, false), []);
    var cfg1 := Cfg(LCOMMENT, Cursor(pos + 1, false), ['/']);
    assert Step(src, m, cfg) == Continue(cfg1);
    RunContinue(src, m, cfg, cfg1);
    assert Step(src, m, cfg1) == Continue(Cfg(INCOMMENT, Cursor(pos + 2, false), []));
    RunContinue(src, m, cfg1, Cfg(INCOMMENT, Cursor(pos + 2, false), []));
  }

  /** The input from `i` on holds only whitespace and comments (the last
      comment possibly unterminated). */
  predicate Blank(src: seq<char>, i: nat)
    requires i <= |src|
    decreases |src| - i
  {
    || i == |src|
    || (IsWhite(src[i]) && Blank(src, i + 1))
    || (i + 1 < |src| && src[i] == '/' && src[i + 1] == '*' &&
        match FindClose(src, i + 2)
        case None => true
        case Some(k) => Blank(src, k + 2))
  }

  /** A character that is neither whitespace nor the start of a comment
      begins a token: the call does not return `ENDFILE`. */
  lemma TokenAhead(src: seq<char>, m: nat, i: nat)
    requires i < |src| && !IsWhite(src[i]) && !(i + 1 < |src| && src[i] == '/' && src[i + 1] == '*')
    ensures GetToken(src, m, Cursor(i, false)).tok != ENDFILE
  {
    var ch := src[i];
    if IsDigit(ch) {
      NumberScan(src, m, i);
    } else if IsAlpha(ch) {
      IdentifierScan(src, m, i);
    } else if ch in {'<', '>', '=', '~'} {
      TwoCharOperators(src, m, i);
    } else if ch == '/' {
      SlashScan(src, m, i);
    } else if IsSelfChar(ch) {
      PunctScan(src, m, i);
      PunctTokensDistinct();
    } else {
      OtherCharScan(src, m, i);
    }
  }

  /** What `EndFileIffBlank` states at position `i`. */
  predicate EndsIffBlank(src: seq<char>, m: nat, i: nat)
    requires i <= |src|
  {
    GetToken(src, m, Cursor(i, false)).tok == ENDFILE <==> Blank(src, i)
  }

  lemma AtEndIffBlank(src: seq<char>, m: nat)
    ensures EndsIffBlank(src, m, |src|)
  {
    assert Blank(src, |src|);
  }

  lemma WhiteEndsIffBlank(src: seq<char>, m: nat, i: nat)
    requires i < |src| && IsWhite(src[i]) && EndsIffBlank(src, m, i + 1)
    ensures EndsIffBlank(src, m, i)
  {
    WhitespaceSkipped(src, m, i);
    assert !(i + 1 < |src| && src[i] == '/');
  }

  lemma CommentEndsIffBlank(src: seq<char>, m: nat, i: nat)
    requires i + 1 < |src| && src[i] == '/' && src[i + 1] == '*'
    requires var close := FindClose(src, i + 2); close.Some? ==> EndsIffBlank(src, m, close.value + 2)
    ensures EndsIffBlank(src, m, i)
  {
    CommentSkipped(src, m, i);
    assert !IsWhite(src[i]);
  }

  lemma TokenEndsIffBlank(src: seq<char>, m: nat, i: nat)
    requires i < |src| && !IsWhite(src[i]) && !(i + 1 < |src| && src[i] == '/' && src[i + 1] == '*')
    ensures EndsIffBlank(src, m, i)
  {
    assert !Blank(src, i);
    TokenAhead(src, m, i);
  }

  /** A call returns `ENDFILE` exactly when nothing but whitespace and
      comments is left. */
  lemma {:induction false} EndFileIffBlank(src: seq<char>, m: nat, i: nat)
    requires i <= |src|
    ensures EndsIffBlank(src, m, i)
    decreases |src| - i
  {
    if i == |src| {
      AtEndIffBlank(src, m);
    } else if IsWhite(src[i]) {
      EndFileIffBlank(src, m, i + 1);
      WhiteEndsIffBlank(src, m, i);
    } else if i + 1 < |src| && src[i] == '/' && src[i + 1] == '*' {
      var close := FindClose(src, i + 2);
      if close.Some? {
        EndFileIffBlank(src, m, close.value + 2);
      }
      CommentEndsIffBlank(src, m, i);
    } else {
      TokenEndsIffBlank(src, m, i);
    }
  }

  /** An input of whitespace and comments only scans as `ENDFILE` and
      nothing else, and only such an input does. */
  lemma BlankInputHasNoTokens(src: seq<char>, m: nat)
    ensures Tokenize(src, m) == [] <==> Blank(src, 0)
  {
    EndFileIffBlank(src, m, 0);
  }

  /** Once `ENDFILE` is returned the cursor is parked at the end and every
      later call returns `ENDFILE` again with nothing changed. */
  lemma EndFileRepeats(src: seq<char>, m: nat, cur: Cursor)
    requires ValidCursor(src, cur)
    requires GetToken(src, m, cur).tok == ENDFILE
    ensures var r := GetToken(src, m, cur);
      GetToken(src, m, r.cur) == r
  {
  }

  // ---------------------------------------------------------------------
  // The lexeme buffer

  /** The position the terminator is written to once a token is complete
      (the buffer index after the last saved character). */
  function TerminatorIndex(r: Scanned): nat {
    |r.lexeme|
  }

  /** The buffer keeps at most `maxTokenLen + 1` characters, so the
      terminator can land at index `maxTokenLen + 1`, one past the last of
      the buffer's `maxTokenLen + 1` slots: an identifier of
      `maxTokenLen + 2` letters does it. */
  lemma TerminatorOverrun(m: nat)
    ensures var src := seq(m + 2, _ => 'a');
      TerminatorIndex(GetToken(src, m, Cursor(0, false))) == m + 1
  {
    var src := seq(m + 2, _ => 'a');
    IdentifierScan(src, m, 0);
    assert RunEnd(src, 0, false) == m + 2;
  }
}
