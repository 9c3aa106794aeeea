/** The sibling chains the parser's loops build, against reference
    definitions that first collect the results of the successive calls in
    a sequence and only then link them.

    The loops of `program`, `compound_stmt` and `args` keep a tail pointer
    and store each new result as its sibling; the loop of the parameter
    lists moves its pointer to each new parameter. The references below
    say which calls happen, in which order, with which results; the lemmas
    say what chain the loops hand back, and when the tail pointer is null
    at the moment a result is stored through it. */
module ParseChains {
  import opened Globals
  import opened Parse

  /** How a run of successive calls of one procedure ends: the results in
      call order and the state after the last call, or the first outcome
      that is not a return. */
  datatype Run = Done(items: seq<Tree>, st: PState) | Stopped(how: Res)

  /** The non-null entries of `xs`, in order. */
  function NonNull(xs: seq<Tree>): (r: seq<Tree>)
    ensures forall i :: 0 <= i < |r| ==> r[i].Node?
    ensures |r| <= |xs|
    ensures (forall i :: 0 <= i < |xs| ==> xs[i].Null?) <==> r == []
  {
    if xs == [] then []
    else if xs[0].Null? then NonNull(xs[1..])
    else [xs[0]] + NonNull(xs[1..])
  }

  /** `xs[0] -> xs[1] -> ...`: each entry's sibling set to the chain of
      the entries after it. */
  function Chain(xs: seq<Tree>): Tree {
    if xs == [] then Null else Link(xs[0], Chain(xs[1..]))
  }

  /** Every entry but the last is a node: storing each next entry as the
      sibling of the one before never goes through a null pointer. */
  predicate LinksHold(xs: seq<Tree>) {
    forall i :: 0 <= i < |xs| - 1 ==> xs[i].Node?
  }

  /** A chain of nodes lists exactly those nodes, in order, each with only
      its sibling link changed. */
  lemma {:induction false} ChainSiblings(xs: seq<Tree>)
    requires forall i :: 0 <= i < |xs| ==> xs[i].Node?
    ensures |Siblings(Chain(xs))| == |xs|
    ensures forall i :: 0 <= i < |xs| ==> SameNode(Siblings(Chain(xs))[i], xs[i])
  {
    if xs != [] {
      var rest := xs[1..];
      ChainSiblings(rest);
      var c := Chain(xs);
      assert c == Link(xs[0], Chain(rest));
      assert Siblings(c) == [c] + Siblings(Chain(rest));
      forall i | 0 <= i < |xs|
        ensures SameNode(Siblings(c)[i], xs[i])
      {
        if i > 0 {
          assert Siblings(c)[i] == Siblings(Chain(rest))[i - 1];
          assert xs[i] == rest[i - 1];
        }
      }
    }
  }

  // ---------------------------------------------------------------------
  // program

  /** The successive `declaration` calls of the loop of `program`, from
      `st` until `ENDFILE` is current. */
  function DeclRun(ts: seq<Lexed>, st: PState): (r: Run)
    ensures r.Done? ==> Later(st, r.st) && Tok(ts, r.st.pos) == ENDFILE
    ensures r.Stopped? ==> !r.how.Ok?
    decreases Remaining(ts, st.pos)
  {
    if Tok(ts, st.pos) == ENDFILE then Done([], st)
    else
      var q := Declaration(ts, st);
      if !q.Ok? then Stopped(q)
      else
        var rest := DeclRun(ts, q.value.st);
        if rest.Done? then Done([q.value.tree] + rest.items, rest.st) else rest
  }

  /** With a non-null tail the loop of `program` returns the non-null
      declarations in call order, linked; a failing call ends it with that
      call's outcome. */
  lemma {:induction false} ProgramLoopOrder(ts: seq<Lexed>, st: PState)
    ensures var run := DeclRun(ts, st);
      run.Done? ==> ProgramLoop(ts, st, false) == Ok(Parsed(Chain(NonNull(run.items)), run.st))
    ensures var run := DeclRun(ts, st);
      run.Stopped? ==> ProgramLoop(ts, st, false) == run.how
    decreases Remaining(ts, st.pos)
  {
    if Tok(ts, st.pos) != ENDFILE {
      var q := Declaration(ts, st);
      if q.Ok? {
        ProgramLoopOrder(ts, q.value.st);
        var rest := DeclRun(ts, q.value.st);
        if rest.Done? {
          assert ([q.value.tree] + rest.items)[1..] == rest.items;
        }
      }
    }
  }

  /** With a null tail (the first declaration was null) the loop returns
      null when every declaration is null, and faults as soon as one is
      not. */
  lemma {:induction false} ProgramLoopFaults(ts: seq<Lexed>, st: PState)
    ensures var run := DeclRun(ts, st);
      run.Done? && NonNull(run.items) == [] ==> ProgramLoop(ts, st, true) == Ok(Parsed(Null, run.st))
    ensures var run := DeclRun(ts, st);
      run.Done? && NonNull(run.items) != [] ==> ProgramLoop(ts, st, true) == NullDeref
    ensures var run := DeclRun(ts, st);
      run.Stopped? ==> ProgramLoop(ts, st, true) == NullDeref || ProgramLoop(ts, st, true) == run.how
    decreases Remaining(ts, st.pos)
  {
    if Tok(ts, st.pos) != ENDFILE {
      var q := Declaration(ts, st);
      if q.Ok? {
        ProgramLoopFaults(ts, q.value.st);
        var rest := DeclRun(ts, q.value.st);
        if rest.Done? {
          assert ([q.value.tree] + rest.items)[1..] == rest.items;
        }
      }
    }
  }

  /** `program`: the non-null declarations from the first one to the end
      of input, linked in call order. */
  lemma {:induction false} ProgramOrder(ts: seq<Lexed>, st: PState, d: Parsed)
    requires Declaration(ts, st) == Ok(d)
    ensures var run := DeclRun(ts, d.st);
      run.Done? && (d.tree.Node? || NonNull(run.items) == []) ==>
        Program(ts, st) == Ok(Parsed(Chain(NonNull([d.tree] + run.items)), run.st))
  {
    ProgramLoopOrder(ts, d.st);
    ProgramLoopFaults(ts, d.st);
    var run := DeclRun(ts, d.st);
    if run.Done? {
      assert ([d.tree] + run.items)[1..] == run.items;
    }
  }

  /** `program` fails when the first declaration does, when a later one
      does, and when the first is null and a later one is not (the link
      faults). */
  lemma {:induction false} ProgramFails(ts: seq<Lexed>, st: PState)
    ensures var d := Declaration(ts, st);
      !d.Ok? ==> Program(ts, st) == d
    ensures var d := Declaration(ts, st);
      d.Ok? && d.value.tree.Null? && DeclRun(ts, d.value.st).Done? && NonNull(DeclRun(ts, d.value.st).items) != [] ==>
        Program(ts, st) == NullDeref
    ensures var d := Declaration(ts, st);
      d.Ok? && DeclRun(ts, d.value.st).Stopped? ==> !Program(ts, st).Ok?
  {
    var d := Declaration(ts, st);
    if d.Ok? {
      ProgramLoopOrder(ts, d.value.st);
      ProgramLoopFaults(ts, d.value.st);
    }
  }

  /** Read back through the sibling links, the tree `program` returns
      lists the non-null declarations in call order. */
  lemma ProgramSiblings(ts: seq<Lexed>, st: PState)
    ensures var r := Program(ts, st);
      r.Ok? ==> var d := Declaration(ts, st);
        d.Ok? && DeclRun(ts, d.value.st).Done? &&
        var xs := NonNull([d.value.tree] + DeclRun(ts, d.value.st).items);
        |Siblings(r.value.tree)| == |xs| && forall i :: 0 <= i < |xs| ==> SameNode(Siblings(r.value.tree)[i], xs[i])
  {
    ProgramFails(ts, st);
    var d := Declaration(ts, st);
    if Program(ts, st).Ok? {
      ProgramOrder(ts, st, d.value);
      ChainSiblings(NonNull([d.value.tree] + DeclRun(ts, d.value.st).items));
    }
  }

  // ---------------------------------------------------------------------
  // compound_stmt

  /** The successive items the loop of `compound_stmt` parses from `st`
      until `}`: a token that cannot start an item is reported and
      skipped; at end of input the loop never ends. */
  function ItemRun(ts: seq<Lexed>, st: PState): (r: Run)
    ensures r.Done? ==> Later(st, r.st) && Tok(ts, r.st.pos) == RBRACE
    ensures r.Stopped? ==> !r.how.Ok?
    decreases Remaining(ts, st.pos)
  {
    var t := Tok(ts, st.pos);
    if t == RBRACE then Done([], st)
    else if t == ENDFILE then Stopped(Diverges)
    else if StartsItem(t) then
      var q := CompoundItem(ts, st);
      if !q.Ok? then Stopped(q)
      else
        var rest := ItemRun(ts, q.value.st);
        if rest.Done? then Done([q.value.tree] + rest.items, rest.st) else rest
    else ItemRun(ts, Skip(ts, st))
  }

  /** The block loop returns the non-null items in call order, linked. */
  lemma {:induction false} CompoundLoopOrder(ts: seq<Lexed>, st: PState)
    ensures var run := ItemRun(ts, st);
      run.Done? ==> CompoundLoop(ts, st) == Ok(Parsed(Chain(NonNull(run.items)), run.st))
    ensures var run := ItemRun(ts, st);
      run.Stopped? ==> CompoundLoop(ts, st) == run.how
    decreases Remaining(ts, st.pos)
  {
    var t := Tok(ts, st.pos);
    if t != RBRACE && t != ENDFILE {
      if StartsItem(t) {
        var q := CompoundItem(ts, st);
        if q.Ok? {
          CompoundLoopOrder(ts, q.value.st);
          var rest := ItemRun(ts, q.value.st);
          if rest.Done? {
            assert ([q.value.tree] + rest.items)[1..] == rest.items;
          }
        }
      } else {
        CompoundLoopOrder(ts, Skip(ts, st));
      }
    }
  }

  /** `compound_stmt`: the first child of the block is the chain of its
      non-null items, in source order. */
  lemma {:induction false} CompoundOrder(ts: seq<Lexed>, st: PState)
    ensures var r := Compound(ts, st);
      r.Ok? ==> var run := ItemRun(ts, Match(ts, st, LBRACE));
        run.Done? && r.value.tree.child0 == Chain(NonNull(run.items))
  {
    CompoundLoopOrder(ts, Match(ts, st, LBRACE));
  }

  // ---------------------------------------------------------------------
  // args

  /** The successive expressions the loop of `args` parses, one after
      each `,`. */
  function ArgRun(ts: seq<Lexed>, st: PState): (r: Run)
    ensures r.Done? ==> Later(st, r.st) && Tok(ts, r.st.pos) != COMMA
    ensures r.Stopped? ==> !r.how.Ok?
    decreases Remaining(ts, st.pos)
  {
    if Tok(ts, st.pos) == COMMA then
      var e := Exp(ts, Match(ts, st, COMMA));
      if !e.Ok? then Stopped(e)
      else
        var rest := ArgRun(ts, e.value.st);
        if rest.Done? then Done([e.value.tree] + rest.items, rest.st) else rest
    else Done([], st)
  }

  /** The loop of `args` after `tail`: the chain of the expressions in call
      order when no link goes through a null pointer, and a fault
      otherwise. */
  lemma {:induction false} ArgsLoopOrder(ts: seq<Lexed>, st: PState, tail: Tree)
    ensures var run := ArgRun(ts, st);
      run.Done? && LinksHold([tail] + run.items) ==> ArgsLoop(ts, st, tail) == Ok(Parsed(Chain(run.items), run.st))
    ensures var run := ArgRun(ts, st);
      run.Done? && !LinksHold([tail] + run.items) ==> ArgsLoop(ts, st, tail) == NullDeref
    ensures var run := ArgRun(ts, st);
      run.Stopped? ==> ArgsLoop(ts, st, tail) == NullDeref || ArgsLoop(ts, st, tail) == run.how
    decreases Remaining(ts, st.pos)
  {
    if Tok(ts, st.pos) == COMMA {
      var e := Exp(ts, Match(ts, st, COMMA));
      if e.Ok? {
        var x := e.value.tree;
        ArgsLoopOrder(ts, e.value.st, x);
        var rest := ArgRun(ts, e.value.st);
        if rest.Done? {
          var items := [x] + rest.items;
          assert items[1..] == rest.items;
          assert [tail] + items == [tail] + ([x] + rest.items);
          assert LinksHold([tail] + items) <==> tail.Node? && LinksHold([x] + rest.items) by {
            var all := [tail] + items;
            if tail.Node? && LinksHold([x] + rest.items) {
              forall i | 0 <= i < |all| - 1
                ensures all[i].Node?
              {
                if i > 0 {
                  assert all[i] == ([x] + rest.items)[i - 1];
                }
              }
            }
            if LinksHold(all) {
              assert all[0] == tail;
              forall i | 0 <= i < |[x] + rest.items| - 1
                ensures ([x] + rest.items)[i].Node?
              {
                assert ([x] + rest.items)[i] == all[i + 1];
              }
            }
          }
        }
      }
    }
  }

  /** `args` on an expression: an `ArgsK` node over the chain of all the
      expressions in call order when no link goes through a null pointer. */
  lemma {:induction false} ArgsOrder(ts: seq<Lexed>, st: PState, e: Parsed)
    requires StartsExp(Tok(ts, st.pos)) && Exp(ts, st) == Ok(e)
    ensures var run := ArgRun(ts, e.st);
      run.Done? && LinksHold([e.tree] + run.items) ==>
        Args(ts, st) == Ok(Parsed(Plain(ExpK(ArgsK), Chain([e.tree] + run.items), Null, Null, Null), run.st))
  {
    ArgsLoopOrder(ts, e.st, e.tree);
    var run := ArgRun(ts, e.st);
    if run.Done? {
      assert ([e.tree] + run.items)[1..] == run.items;
    }
  }

  /** `args` on an expression faults when a null expression is followed by
      a comma. */
  lemma {:induction false} ArgsFail(ts: seq<Lexed>, st: PState, e: Parsed)
    requires StartsExp(Tok(ts, st.pos)) && Exp(ts, st) == Ok(e)
    ensures var run := ArgRun(ts, e.st);
      run.Done? && !LinksHold([e.tree] + run.items) ==> Args(ts, st) == NullDeref
  {
    ArgsLoopOrder(ts, e.st, e.tree);
  }

  /** `args` returns nothing when one of the later expressions does not
      return. */
  lemma {:induction false} ArgsStop(ts: seq<Lexed>, st: PState, e: Parsed)
    requires StartsExp(Tok(ts, st.pos)) && Exp(ts, st) == Ok(e)
    ensures ArgRun(ts, e.st).Stopped? ==> !Args(ts, st).Ok?
  {
    ArgsLoopOrder(ts, e.st, e.tree);
  }

  // ---------------------------------------------------------------------
  // Parameter lists

  /** The successive `param` calls of the loop of the parameter lists,
      one after each `,`. */
  function ParamRun(ts: seq<Lexed>, st: PState): (r: seq<Parsed>)
    ensures forall i :: 0 <= i < |r| ==> r[i].tree.Node? && r[i].tree.kind == StmtK(ParamK)
    ensures Tok(ts, st.pos) == COMMA <==> r != []
    decreases Remaining(ts, st.pos)
  {
    if Tok(ts, st.pos) == COMMA then
      var p := Param(ts, Match(ts, st, COMMA));
      [p] + ParamRun(ts, p.st)
    else []
  }

  /** The loop ends holding the last parameter it parsed (or `last` when
      no `,` follows), and the state after it. */
  lemma {:induction false} ParamLoopLast(ts: seq<Lexed>, st: PState, last: Tree)
    requires last.Node? && last.kind == StmtK(ParamK)
    ensures var run := ParamRun(ts, st);
      ParamLoop(ts, st, last) == if run == [] then Parsed(last, st) else run[|run| - 1]
    decreases Remaining(ts, st.pos)
  {
    if Tok(ts, st.pos) == COMMA {
      var p := Param(ts, Match(ts, st, COMMA));
      ParamLoopLast(ts, p.st, p.tree);
    }
  }
}
