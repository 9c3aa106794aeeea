/** The front end as a whole: `parse` pulling its tokens from the scanner,
    and why the parser may read them from a precomputed stream. */
module Front {
  import opened Globals
  import opened Scan
  import opened ScanProps
  import opened Parse

  /** The result of the `n`-th call of `getToken` after the one at `cur`
      (the 0-th being that call itself). */
  function Calls(src: seq<char>, m: nat, cur: Cursor, n: nat): (r: Scanned)
    requires ValidCursor(src, cur)
    ensures ValidCursor(src, r.cur)
    decreases n
  {
    var r := GetToken(src, m, cur);
    if n == 0 then r else Calls(src, m, r.cur, n - 1)
  }

  /** Once a call returns `ENDFILE`, so does every later one, with an
      empty lexeme. */
  lemma {:induction false} CallsAfterEnd(src: seq<char>, m: nat, cur: Cursor, n: nat)
    requires ValidCursor(src, cur) && GetToken(src, m, cur).tok == ENDFILE
    ensures Calls(src, m, cur, n) == GetToken(src, m, cur)
    ensures Calls(src, m, cur, n).tok == ENDFILE && Calls(src, m, cur, n).lexeme == []
    decreases n
  {
    if n > 0 {
      var r := GetToken(src, m, cur);
      EndFileRepeats(src, m, cur);
      CallsAfterEnd(src, m, r.cur, n - 1);
    }
  }

  /** What `StreamIsCalls` states at `cur` and `n`. */
  predicate StreamAgrees(src: seq<char>, m: nat, cur: Cursor, n: nat)
    requires ValidCursor(src, cur)
  {
    && Tok(TokenizeFrom(src, m, cur), n) == Calls(src, m, cur, n).tok
    && Text(TokenizeFrom(src, m, cur), n) == Calls(src, m, cur, n).lexeme
  }

  /** A stream whose first call returns `ENDFILE` is empty. */
  lemma StreamAtEnd(src: seq<char>, m: nat, cur: Cursor, n: nat)
    requires ValidCursor(src, cur) && GetToken(src, m, cur).tok == ENDFILE
    ensures StreamAgrees(src, m, cur, n)
  {
    assert TokenizeFrom(src, m, cur) == [];
    CallsAfterEnd(src, m, cur, n);
  }

  /** Index 0 of a non-empty stream is the first call. */
  lemma StreamHead(src: seq<char>, m: nat, cur: Cursor)
    requires ValidCursor(src, cur) && GetToken(src, m, cur).tok != ENDFILE
    ensures StreamAgrees(src, m, cur, 0)
  {
    var r := GetToken(src, m, cur);
    assert TokenizeFrom(src, m, cur)[0] == Lexed(r.tok, r.lexeme);
  }

  /** Index `n + 1` of a non-empty stream is index `n` of the stream after
      the first call. */
  lemma StreamStep(src: seq<char>, m: nat, cur: Cursor, n: nat)
    requires ValidCursor(src, cur) && GetToken(src, m, cur).tok != ENDFILE
    requires StreamAgrees(src, m, GetToken(src, m, cur).cur, n)
    ensures StreamAgrees(src, m, cur, n + 1)
  {
    var r := GetToken(src, m, cur);
    var rest := TokenizeFrom(src, m, r.cur);
    var ts := TokenizeFrom(src, m, cur);
    assert ts == [Lexed(r.tok, r.lexeme)] + rest;
    assert Tok(ts, n + 1) == Tok(rest, n) && Text(ts, n + 1) == Text(rest, n);
  }

  /** Reading the precomputed stream at index `n` gives the token and the
      lexeme buffer that the `n`-th call of `getToken` leaves, past the end
      of the stream included: the parser over the stream sees what the
      parser calling the scanner sees. */
  lemma {:induction false} StreamIsCalls(src: seq<char>, m: nat, cur: Cursor, n: nat)
    requires ValidCursor(src, cur)
    ensures StreamAgrees(src, m, cur, n)
    decreases n
  {
    var r := GetToken(src, m, cur);
    if r.tok == ENDFILE {
      StreamAtEnd(src, m, cur, n);
    } else if n == 0 {
      StreamHead(src, m, cur);
    } else {
      StreamIsCalls(src, m, r.cur, n - 1);
      StreamStep(src, m, cur, n - 1);
    }
  }

  /** `parse`: the program in the token stream of `src`. */
  function ParseSource(src: seq<char>, m: nat): (r: Res)
    ensures r.Ok? ==> WellFormed(r.value.tree) && DeclChain(r.value.tree)
    ensures Blank(src, 0) ==> r == ParseTokens([])
  {
    BlankInputHasNoTokens(src, m);
    ParseTokens(Tokenize(src, m))
  }

  /** The check at the end of `parse` never reports: `program` only
      returns at `ENDFILE`. */
  lemma ParseCheckNeverFires(ts: seq<Lexed>)
    ensures ParseTokens(ts) == Program(ts, PState(0, []))
  {
  }

  /** A chain is a declaration chain exactly when every node in it is a
      declaration. */
  lemma {:induction false} DeclChainSiblings(t: Tree)
    ensures DeclChain(t) <==> forall i :: 0 <= i < |Siblings(t)| ==> IsDecl(Siblings(t)[i])
  {
    if t.Node? {
      var s := Siblings(t);
      var rest := Siblings(t.sibling);
      DeclChainSiblings(t.sibling);
      assert s == [t] + rest;
      if forall i :: 0 <= i < |s| ==> IsDecl(s[i]) {
        assert IsDecl(s[0]);
        forall i | 0 <= i < |rest|
          ensures IsDecl(rest[i])
        {
          assert rest[i] == s[i + 1];
        }
      }
      if DeclChain(t) {
        assert DeclChain(t.sibling);
        assert DeclChain(t.sibling) <==> forall i :: 0 <= i < |Siblings(t.sibling)| ==> IsDecl(Siblings(t.sibling)[i]);
        assert forall k :: 0 <= k < |rest| ==> IsDecl(rest[k]);
        forall i | 0 <= i < |s|
          ensures IsDecl(s[i])
        {
          if i > 0 {
            assert s[i] == rest[i - 1];
          }
        }
      }
    }
  }
}
