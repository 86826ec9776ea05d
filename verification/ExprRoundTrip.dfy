/** Parsing the tokens of a printed expression gives the expression back, exactly when it needs no parentheses. */
module ExprRoundTrip {
  import opened Prelude
  import opened Ast
  import opened Tokens
  import opened Grammar
  import opened Render

  // ---- what may follow -----------------------------------------------------------------------

  /** No operator of level `k` or a tighter one continues an expression at `ts`, nor does a postfix. */
  ghost predicate Stops(k: nat, ts: seq<Token>) {
    && (k <= 0 ==> OpAt(0, ts).NoOp?) && (k <= 1 ==> OpAt(1, ts).NoOp?) && (k <= 2 ==> OpAt(2, ts).NoOp?)
    && (k <= 4 ==> OpAt(4, ts).NoOp? && !AtWord(ts, "IS"))
    && (k <= 5 ==> OpAt(5, ts).NoOp?) && (k <= 6 ==> OpAt(6, ts).NoOp?) && (k <= 7 ==> !AtSym(ts, Caret))
    && !AtSym(ts, Dot) && !AtSym(ts, LBracket) && !AtSym(ts, LBrace) && !AtSym(ts, Colon) && !AtSym(ts, LParen)
  }

  /** Looking past dots finds no call. */
  ghost predicate NoCall(ts: seq<Token>) {
    AfterDots(ts).Got? && !AtSym(AfterDots(ts).value, LParen) && !AtSym(ts, LParen) && !AtSym(ts, LBrace)
        && !AtSym(ts, Colon)
  }

  /** A closing bracket, a comma or `..` ends an expression at every level. */
  lemma CloserStops(s: Symbol, k: seq<Token>)
    requires s in {RBracket, RParen, RBrace, Comma, DotDot, Pipe}
    ensures Stops(0, [Sym(s)] + k)
  {
    var ts := [Sym(s)] + k;
    assert ts[0] == Sym(s);
  }

  /** An operator stops the operands at its left, which are of the same level or tighter. */
  lemma OperatorStops(op: BinOp, k: seq<Token>)
    ensures var ts := OpTokens(op) + k;
            && Stops(OpLevel(op) + 1, ts)
            && (LeftLevel(OpLevel(op)) ==> OpAt(OpLevel(op), ts) == Op(op, |OpTokens(op)|))
            && (op.PowOp? ==> AtSym(ts, Caret))
            && ts[|OpTokens(op)|..] == k
  {
    var ts := OpTokens(op) + k;
    assert ts[0] == OpTokens(op)[0];
    assert op.StartsOp? || op.EndsOp? ==> ts[1..][0] == Kw("WITH");
  }

  // ---- what an expression starts with -----------------------------------------------------------

  /** A token that can begin a printed operand of level `k`. */
  predicate Starts(k: nat, tok: Token) {
    && tok != Sym(LParen) && tok != Sym(Plus) && tok != Sym(RBracket) && tok != Sym(RParen) && tok != Sym(DotDot)
       && tok != Sym(Asterisk)
    && !(tok.Keyword? && tok.word in {"SHORTESTPATH", "ALLSHORTESTPATHS", "IN", "DISTINCT"})
    && (k >= 4 ==> !(tok.Keyword? && tok.word == "NOT"))
    && (k >= 9 ==> tok != Sym(Minus))
  }

  lemma {:induction false} FirstToken(t: Tables, k: nat, e: Expr, rest: seq<Token>)
    requires k <= 9 && Levels(k, e) && Leaves(t, e)
    ensures Toks(t, e, rest) != [] && Starts(k, Toks(t, e, rest)[0])
    decreases e
  {
    match e
    case Property(o, key) =>
      FirstToken(t, 9, o, [Sym(Dot)] + ([KeyToken(t, key)] + rest));
      StartsLower(9, k, Toks(t, e, rest)[0]);
    case Binary(op, l, r) =>
      var j := if op.PowOp? then 8 else OpLevel(op);
      FirstToken(t, j, l, OpTokens(op) + Toks(t, r, rest));
      StartsLower(j, k, Toks(t, e, rest)[0]);
    case IsNull(a, negated) =>
      FirstToken(t, 4, a, [Kw("IS")] + ((if negated then [Kw("NOT")] else []) + ([Kw("NULL")] + rest)));
      StartsLower(4, k, Toks(t, e, rest)[0]);
    case Subscript(b, i) =>
      FirstToken(t, 9, b, [Sym(LBracket)] + Toks(t, i, [Sym(RBracket)] + rest));
      StartsLower(9, k, Toks(t, e, rest)[0]);
    case Slice(b, s, n) =>
      FirstToken(t, 9, b, [Sym(LBracket)] + ToksOpt(t, s, [Sym(DotDot)] + ToksOpt(t, n, [Sym(RBracket)] + rest)));
      StartsLower(9, k, Toks(t, e, rest)[0]);
    case _ =>
  }

  lemma StartsLower(j: nat, k: nat, tok: Token)
    requires Starts(j, tok) && k <= j
    ensures Starts(k, tok)
  {
  }

  // ---- loops that stop at once ---------------------------------------------------------------------

  lemma NothingMore(t: Tables, k: nat, e: Expr, rest: seq<Token>, d: nat)
    requires LeftLevel(k) && Stops(k, rest)
    ensures Operators(t, k, e, rest, d) == Got(e, rest)
  {
  }

  lemma NoPostfix(t: Tables, k: nat, e: Expr, rest: seq<Token>, d: nat)
    requires Stops(k, rest)
    ensures Postfix(t, e, rest, d) == Got(e, rest)
  {
  }

  /** An expression that may stand at level `k` and is not itself of that level may stand at the next one. */
  lemma LevelUp(k: nat, e: Expr)
    requires Levels(k, e) && k <= 8
    requires e.Binary? ==> OpLevel(e.op) != k
    requires (e.Not? ==> k != 3) && (e.IsNull? ==> k != 4) && (e.Neg? ==> k != 8)
    ensures Levels(k + 1, e)
  {
  }

  // ---- what follows a part of an expression ----------------------------------------------------------

  lemma KeyName(t: Tables, key: string, rest: seq<Token>)
    ensures UnquotedName([KeyToken(t, key)] + rest) == Got(key, rest)
  {
    assert ([KeyToken(t, key)] + rest)[1..] == rest;
  }

  lemma DotNoCall(t: Tables, key: string, rest: seq<Token>)
    requires NoCall(rest)
    ensures NoCall([Sym(Dot)] + ([KeyToken(t, key)] + rest))
  {
    var ts := [Sym(Dot)] + ([KeyToken(t, key)] + rest);
    assert ts[1..] == [KeyToken(t, key)] + rest;
    KeyName(t, key, rest);
    assert AfterDots(ts) == AfterDots(rest);
  }

  lemma BracketNoCall(ts: seq<Token>)
    ensures NoCall([Sym(LBracket)] + ts)
  {
  }

  lemma NullTestReads(negated: bool, rest: seq<Token>)
    ensures var ts := [Kw("IS")] + ((if negated then [Kw("NOT")] else []) + ([Kw("NULL")] + rest));
            AtWord(ts, "IS") && NullTest(ts) == Got(negated, rest) && Stops(5, ts) && OpAt(4, ts).NoOp?
  {
    var us := (if negated then [Kw("NOT")] else []) + ([Kw("NULL")] + rest);
    var ts := [Kw("IS")] + us;
    assert ts[1..] == us;
    if negated {
      assert us[1..] == [Kw("NULL")] + rest && ts[2..] == [Kw("NULL")] + rest;
    } else {
      assert us == [Kw("NULL")] + rest;
    }
    assert ([Kw("NULL")] + rest)[1..] == rest;
  }

  // ---- integers -------------------------------------------------------------------------------------------

  lemma {:induction false} DigitsValue(n: nat)
    ensures DecimalValue(Digits(n)) == n
  {
    var s := Digits(n);
    assert s[|s| - 1] == (n % 10 + '0' as int) as char;
    if n < 10 {
      assert s[..|s| - 1] == "";
    } else {
      assert s[..|s| - 1] == Digits(n / 10);
      DigitsValue(n / 10);
    }
  }

  // ---- lists are not comprehensions ------------------------------------------------------------------------

  lemma {:induction false} ToksConcat(t: Tables, e: Expr, a: seq<Token>, b: seq<Token>)
    ensures Toks(t, e, a + b) == Toks(t, e, a) + b
    decreases e, 1
  {
    match e
    case Property(o, key) =>
      ToksConcat(t, o, [Sym(Dot)] + ([KeyToken(t, key)] + a), b);
      ConcatTwice([Sym(Dot)], [KeyToken(t, key)], a, b);
    case ListLit(es) =>
      ConcatAssoc([Sym(RBracket)], a, b);
      ToksListConcat(t, es, [Sym(RBracket)] + a, b);
      ConcatAssoc([Sym(LBracket)], ToksList(t, es, [Sym(RBracket)] + a), b);
    case Binary(op, l, r) =>
      ToksConcat(t, r, a, b);
      ConcatAssoc(OpTokens(op), Toks(t, r, a), b);
      ToksConcat(t, l, OpTokens(op) + Toks(t, r, a), b);
    case Not(x) => ToksConcat(t, x, a, b); ConcatAssoc([Kw("NOT")], Toks(t, x, a), b);
    case Neg(x) => ToksConcat(t, x, a, b); ConcatAssoc([Sym(Minus)], Toks(t, x, a), b);
    case IsNull(x, negated) =>
      var mid := if negated then [Kw("NOT")] else [];
      ToksConcat(t, x, [Kw("IS")] + (mid + ([Kw("NULL")] + a)), b);
      ConcatTwice(mid, [Kw("NULL")], a, b);
      ConcatAssoc([Kw("IS")], mid + ([Kw("NULL")] + a), b);
    case Subscript(x, i) =>
      ConcatAssoc([Sym(RBracket)], a, b);
      ToksConcat(t, i, [Sym(RBracket)] + a, b);
      ConcatAssoc([Sym(LBracket)], Toks(t, i, [Sym(RBracket)] + a), b);
      ToksConcat(t, x, [Sym(LBracket)] + Toks(t, i, [Sym(RBracket)] + a), b);
    case Slice(x, s, n) => SliceConcat(t, x, s, n, a, b);
    case Call(f, distinct, es) => ArgsConcat(t, CallToken(f), if distinct then [Kw("DISTINCT")] else [], es, a, b);
    case Coalesce(es) => CoalesceConcat(t, es, a, b);
    case _ =>
  }

  lemma ConcatTwice<T>(x: seq<T>, y: seq<T>, a: seq<T>, b: seq<T>)
    ensures x + (y + (a + b)) == x + (y + a) + b
  {
    ConcatAssoc(y, a, b);
    ConcatAssoc(x, y + a, b);
  }

  lemma {:induction false} ArgsConcat(t: Tables, tok: Token, mid: seq<Token>, es: seq<Expr>, a: seq<Token>,
          b: seq<Token>)
    ensures [tok] + ([Sym(LParen)] + (mid + ToksList(t, es, [Sym(RParen)] + (a + b)))) ==
            [tok] + ([Sym(LParen)] + (mid + ToksList(t, es, [Sym(RParen)] + a))) + b
    decreases es, 1
  {
    var items := ToksList(t, es, [Sym(RParen)] + a);
    ConcatAssoc([Sym(RParen)], a, b);
    ToksListConcat(t, es, [Sym(RParen)] + a, b);
    ConcatTwice([Sym(LParen)], mid, items, b);
    ConcatAssoc([tok], [Sym(LParen)] + (mid + items), b);
  }

  lemma {:induction false} CoalesceConcat(t: Tables, es: seq<Expr>, a: seq<Token>, b: seq<Token>)
    ensures Toks(t, Coalesce(es), a + b) == Toks(t, Coalesce(es), a) + b
    decreases es, 2
  {
    var items := ToksList(t, es, [Sym(RParen)] + a);
    ConcatAssoc([Sym(RParen)], a, b);
    ToksListConcat(t, es, [Sym(RParen)] + a, b);
    ConcatTwice([Ident("coalesce")], [Sym(LParen)], items, b);
  }

  lemma {:induction false} SliceConcat(
    t: Tables, x: Expr, s: Option<Expr>, n: Option<Expr>, a: seq<Token>, b: seq<Token>)
    ensures Toks(t, Slice(x, s, n), a + b) == Toks(t, Slice(x, s, n), a) + b
    decreases Slice(x, s, n), 0
  {
    ConcatAssoc([Sym(RBracket)], a, b);
    if n.Some? { ToksConcat(t, n.value, [Sym(RBracket)] + a, b); }
    var end := ToksOpt(t, n, [Sym(RBracket)] + a);
    ConcatAssoc([Sym(DotDot)], end, b);
    if s.Some? { ToksConcat(t, s.value, [Sym(DotDot)] + end, b); }
    var mid := ToksOpt(t, s, [Sym(DotDot)] + end);
    ConcatAssoc([Sym(LBracket)], mid, b);
    ToksConcat(t, x, [Sym(LBracket)] + mid, b);
  }

  lemma {:induction false} ToksListConcat(t: Tables, es: seq<Expr>, a: seq<Token>, b: seq<Token>)
    ensures ToksList(t, es, a + b) == ToksList(t, es, a) + b
    decreases es, 0
  {
    if |es| == 1 {
      ToksConcat(t, es[0], a, b);
    } else if es != [] {
      ToksListConcat(t, es[1..], a, b);
      ConcatAssoc([Sym(Comma)], ToksList(t, es[1..], a), b);
      ToksConcat(t, es[0], [Sym(Comma)] + ToksList(t, es[1..], a), b);
    }
  }

  lemma StarTokens(t: Tables, es: seq<Expr>, rest: seq<Token>)
    requires es == [StarArg]
    ensures ToksList(t, es, rest) == [Sym(Asterisk)] + rest
  {
    assert |es| == 1 && es[0] == StarArg;
  }

  /** Every `=` is followed by the beginning of an operand. */
  ghost predicate EqFollowed(ts: seq<Token>) {
    forall i :: 0 <= i < |ts| - 1 && ts[i] == Sym(Equals) ==> Starts(0, ts[i + 1])
  }

  lemma EqCons(tok: Token, ts: seq<Token>)
    requires EqFollowed(ts) && (tok == Sym(Equals) && ts != [] ==> Starts(0, ts[0]))
    ensures EqFollowed([tok] + ts)
  {
    var us := [tok] + ts;
    forall i | 0 <= i < |us| - 1 && us[i] == Sym(Equals) ensures Starts(0, us[i + 1]) {
      if i > 0 { assert us[i] == ts[i - 1] && us[i + 1] == ts[i]; }
    }
  }

  lemma EqOperator(op: BinOp, ts: seq<Token>)
    requires EqFollowed(ts) && ts != [] && Starts(0, ts[0])
    ensures EqFollowed(OpTokens(op) + ts)
  {
    if op.StartsOp? || op.EndsOp? {
      EqCons(Kw("WITH"), ts);
      EqCons(OpTokens(op)[0], [Kw("WITH")] + ts);
      assert OpTokens(op) + ts == [OpTokens(op)[0]] + ([Kw("WITH")] + ts);
    } else {
      EqCons(OpTokens(op)[0], ts);
    }
  }

  lemma {:induction false} EqToks(t: Tables, k: nat, e: Expr, rest: seq<Token>)
    requires k <= 9 && Levels(k, e) && Leaves(t, e) && EqFollowed(rest)
    ensures EqFollowed(Toks(t, e, rest))
    decreases e, 1
  {
    match e
    case Property(o, key) =>
      EqCons(KeyToken(t, key), rest);
      EqCons(Sym(Dot), [KeyToken(t, key)] + rest);
      EqToks(t, 9, o, [Sym(Dot)] + ([KeyToken(t, key)] + rest));
    case ListLit(es) =>
      EqCons(Sym(RBracket), rest);
      EqToksList(t, es, [Sym(RBracket)] + rest);
      EqCons(Sym(LBracket), ToksList(t, es, [Sym(RBracket)] + rest));
    case Binary(op, l, r) =>
      var kl, kr := if op.PowOp? then 8 else OpLevel(op), if op.PowOp? then 7 else OpLevel(op) + 1;
      EqToks(t, kr, r, rest);
      FirstToken(t, kr, r, rest);
      StartsLower(kr, 0, Toks(t, r, rest)[0]);
      EqOperator(op, Toks(t, r, rest));
      EqToks(t, kl, l, OpTokens(op) + Toks(t, r, rest));
    case Not(a) => EqToks(t, 3, a, rest); EqCons(Kw("NOT"), Toks(t, a, rest));
    case Neg(a) => EqToks(t, 8, a, rest); EqCons(Sym(Minus), Toks(t, a, rest));
    case IsNull(a, negated) =>
      EqCons(Kw("NULL"), rest);
      if negated { EqCons(Kw("NOT"), [Kw("NULL")] + rest); }
      var us := (if negated then [Kw("NOT")] else []) + ([Kw("NULL")] + rest);
      assert !negated ==> us == [Kw("NULL")] + rest;
      EqCons(Kw("IS"), us);
      EqToks(t, 4, a, [Kw("IS")] + us);
    case Subscript(b, i) =>
      EqCons(Sym(RBracket), rest);
      EqToks(t, 0, i, [Sym(RBracket)] + rest);
      EqCons(Sym(LBracket), Toks(t, i, [Sym(RBracket)] + rest));
      EqToks(t, 9, b, [Sym(LBracket)] + Toks(t, i, [Sym(RBracket)] + rest));
    case Slice(b, s, n) => EqSlice(t, b, s, n, rest);
    case Call(f, distinct, es) => EqCall(t, CallToken(f), f, distinct, es, rest);
    case Coalesce(es) =>
      EqCall(t, Ident("coalesce"), "coalesce", false, es, rest);
      assert [] + ToksList(t, es, [Sym(RParen)] + rest) == ToksList(t, es, [Sym(RParen)] + rest);
    case FloatLit(_) =>
    case StarArg =>
    case _ => EqCons(Toks(t, e, rest)[0], rest);
  }

  lemma {:induction false} EqSlice(t: Tables, b: Expr, s: Option<Expr>, n: Option<Expr>, rest: seq<Token>)
    requires Levels(9, Slice(b, s, n)) && Leaves(t, Slice(b, s, n)) && EqFollowed(rest)
    ensures EqFollowed(Toks(t, Slice(b, s, n), rest))
    decreases Slice(b, s, n), 0
  {
    EqCons(Sym(RBracket), rest);
    if n.Some? { EqToks(t, 0, n.value, [Sym(RBracket)] + rest); }
    var end := ToksOpt(t, n, [Sym(RBracket)] + rest);
    EqCons(Sym(DotDot), end);
    if s.Some? { EqToks(t, 0, s.value, [Sym(DotDot)] + end); }
    var us := ToksOpt(t, s, [Sym(DotDot)] + end);
    EqCons(Sym(LBracket), us);
    EqToks(t, 9, b, [Sym(LBracket)] + us);
  }

  lemma {:induction false} EqCall(t: Tables, tok: Token, f: string, distinct: bool, es: seq<Expr>, rest: seq<Token>)
    requires tok != Sym(Equals) && EqFollowed(rest)
    requires CountAll(f, distinct, es) || (LevelsAll(es) && LeavesAll(t, es))
    ensures EqFollowed([tok] + ([Sym(LParen)] +
            ((if distinct then [Kw("DISTINCT")] else []) + ToksList(t, es, [Sym(RParen)] + rest))))
    decreases es, 2
  {
    var items := ToksList(t, es, [Sym(RParen)] + rest);
    EqCons(Sym(RParen), rest);
    if CountAll(f, distinct, es) {
      EqCons(Sym(Asterisk), [Sym(RParen)] + rest);
      StarTokens(t, es, [Sym(RParen)] + rest);
    } else {
      EqToksList(t, es, [Sym(RParen)] + rest);
    }
    if distinct { EqCons(Kw("DISTINCT"), items); }
    var us := (if distinct then [Kw("DISTINCT")] else []) + items;
    assert !distinct ==> us == items;
    EqCons(Sym(LParen), us);
    EqCons(tok, [Sym(LParen)] + us);
  }

  lemma {:induction false} EqToksList(t: Tables, es: seq<Expr>, rest: seq<Token>)
    requires LevelsAll(es) && LeavesAll(t, es) && EqFollowed(rest)
    ensures EqFollowed(ToksList(t, es, rest))
    decreases es, 0
  {
    if |es| == 1 {
      EqToks(t, 0, es[0], rest);
    } else if es != [] {
      EqToksList(t, es[1..], rest);
      EqCons(Sym(Comma), ToksList(t, es[1..], rest));
      EqToks(t, 0, es[0], [Sym(Comma)] + ToksList(t, es[1..], rest));
    }
  }

  // ---- the round trip -----------------------------------------------------------------------------------

  lemma {:induction false} ReadAt(t: Tables, k: nat, e: Expr, rest: seq<Token>, d: nat)
    requires k <= 9 && Levels(k, e) && Leaves(t, e) && Nest(e) <= d && Stops(k, rest)
    ensures ParseAt(t, k, Toks(t, e, rest), d) == Got(e, rest)
    decreases e, 30 - 2 * k
  {
    if LeftLevel(k) {
      ReadLeft(t, k, e, Toks(t, e, rest), rest, d);
      NothingMore(t, k, e, rest, d);
    } else if k == 3 {
      ReadNot(t, e, rest, d);
    } else if k == 7 {
      ReadPow(t, e, rest, d);
    } else if k == 8 {
      ReadSign(t, e, rest, d);
    } else {
      ReadPostfix(t, e, rest, d);
      NoPostfix(t, k, e, rest, d);
    }
  }

  lemma {:induction false} ReadAtOn(t: Tables, k: nat, e: Expr, ts: seq<Token>, rest: seq<Token>, d: nat)
    requires k <= 9 && Levels(k, e) && Leaves(t, e) && Nest(e) <= d && Stops(k, rest) && ts == Toks(t, e, rest)
    ensures ParseAt(t, k, ts, d) == Got(e, rest)
    decreases e, 31
  {
    ReadAt(t, k, e, rest, d);
  }

  lemma {:induction false} ReadNot(t: Tables, e: Expr, rest: seq<Token>, d: nat)
    requires Levels(3, e) && Leaves(t, e) && Nest(e) <= d && Stops(3, rest)
    ensures ParseAt(t, 3, Toks(t, e, rest), d) == Got(e, rest)
    decreases e, 23
  {
    if e.Not? {
      ReadNot(t, e.arg, rest, d);
      assert ([Kw("NOT")] + Toks(t, e.arg, rest))[1..] == Toks(t, e.arg, rest);
    } else {
      LevelUp(3, e);
      FirstToken(t, 4, e, rest);
      ReadAt(t, 4, e, rest, d);
    }
  }

  lemma {:induction false} ReadPow(t: Tables, e: Expr, rest: seq<Token>, d: nat)
    requires Levels(7, e) && Leaves(t, e) && Nest(e) <= d && Stops(7, rest)
    ensures ParseAt(t, 7, Toks(t, e, rest), d) == Got(e, rest)
    decreases e, 15
  {
    if e.Binary? {
      var more := Toks(t, e.right, rest);
      OperatorStops(PowOp, more);
      ReadAt(t, 8, e.left, OpTokens(PowOp) + more, d);
      ReadPow(t, e.right, rest, d);
    } else {
      LevelUp(7, e);
      ReadAt(t, 8, e, rest, d);
    }
  }

  lemma {:induction false} ReadSign(t: Tables, e: Expr, rest: seq<Token>, d: nat)
    requires Levels(8, e) && Leaves(t, e) && Nest(e) <= d && Stops(8, rest)
    ensures ParseAt(t, 8, Toks(t, e, rest), d) == Got(e, rest)
    decreases e, 13
  {
    if e.Neg? {
      ReadSign(t, e.arg, rest, d);
      assert ([Sym(Minus)] + Toks(t, e.arg, rest))[1..] == Toks(t, e.arg, rest);
    } else {
      LevelUp(8, e);
      FirstToken(t, 9, e, rest);
      ReadAt(t, 9, e, rest, d);
    }
  }

  /** One turn of the loop of a left-associative level. */
  lemma LeftStep(t: Tables, l: Expr, op: BinOp, r: Expr, us: seq<Token>, vs: seq<Token>, rest: seq<Token>, d: nat)
    requires LeftLevel(OpLevel(op)) && ParseAt(t, OpLevel(op) + 1, us, d) == Got(r, rest) && vs == OpTokens(op) + us
    ensures Operators(t, OpLevel(op), l, vs, d) == Operators(t, OpLevel(op), Binary(op, l, r), rest, d)
  {
    OperatorSeen(op, us);
  }

  lemma OperatorSeen(op: BinOp, us: seq<Token>)
    requires LeftLevel(OpLevel(op))
    ensures OpAt(OpLevel(op), OpTokens(op) + us) == Op(op, |OpTokens(op)|)
    ensures (OpTokens(op) + us)[|OpTokens(op)|..] == us
  {
    OperatorStops(op, us);
  }

  lemma OperatorEnds(op: BinOp, us: seq<Token>, vs: seq<Token>)
    requires vs == OpTokens(op) + us
    ensures Stops(OpLevel(op) + 1, vs)
  {
    OperatorStops(op, us);
  }

  lemma NullStep(t: Tables, a: Expr, negated: bool, rest: seq<Token>, d: nat)
    ensures Operators(t, 4, a, [Kw("IS")] + ((if negated then [Kw("NOT")] else []) + ([Kw("NULL")] + rest)), d) ==
            Operators(t, 4, IsNull(a, negated), rest, d)
  {
    NullTestReads(negated, rest);
  }

  lemma NextLevelReads(t: Tables, k: nat, e: Expr, ts: seq<Token>, rest: seq<Token>, d: nat)
    requires LeftLevel(k) && ParseAt(t, k + 1, ts, d) == Got(e, rest)
    ensures ParseAt(t, k, ts, d) == Operators(t, k, e, rest, d)
  {
  }

  /** A left-associative level reads the tokens `ts` of `e` and is then in its loop with `e` on the left. */
  lemma {:induction false} ReadLeft(t: Tables, k: nat, e: Expr, ts: seq<Token>, rest: seq<Token>, d: nat)
    requires LeftLevel(k) && Levels(k, e) && Leaves(t, e) && Nest(e) <= d && Stops(k + 1, rest)
    requires ts == Toks(t, e, rest)
    ensures ParseAt(t, k, ts, d) == Operators(t, k, e, rest, d)
    decreases e, 29 - 2 * k
  {
    if e.Binary? && OpLevel(e.op) == k {
      var us := Toks(t, e.right, rest);
      ReadAtOn(t, k + 1, e.right, us, rest, d);
      ReadLeftOp(t, k, e.op, e.left, e.right, ts, us, OpTokens(e.op) + us, rest, d);
    } else if e.IsNull? && k == 4 {
      ReadLeftNull(t, e.arg, e.negated, ts, rest, d);
    } else {
      LevelUp(k, e);
      ReadAt(t, k + 1, e, rest, d);
      NextLevelReads(t, k, e, ts, rest, d);
    }
  }

  lemma {:induction false} ReadLeftNull(t: Tables, a: Expr, negated: bool, ts: seq<Token>, rest: seq<Token>, d: nat)
    requires Levels(4, a) && Leaves(t, a) && Nest(a) <= d && Stops(5, rest)
    requires ts == Toks(t, a, [Kw("IS")] + ((if negated then [Kw("NOT")] else []) + ([Kw("NULL")] + rest)))
    ensures ParseAt(t, 4, ts, d) == Operators(t, 4, IsNull(a, negated), rest, d)
    decreases a, 32
  {
    NullTestReads(negated, rest);
    ReadLeft(t, 4, a, ts, [Kw("IS")] + ((if negated then [Kw("NOT")] else []) + ([Kw("NULL")] + rest)), d);
    NullStep(t, a, negated, rest, d);
  }

  /** The operands in turn: `us` are the tokens of the right one, `vs` those from the operator on, `ts` those
      of the whole. */
  lemma {:induction false} ReadLeftOp(
    t: Tables, k: nat, op: BinOp, l: Expr, r: Expr, ts: seq<Token>, us: seq<Token>, vs: seq<Token>, rest: seq<Token>,
    d: nat)
    requires LeftLevel(k) && OpLevel(op) == k && Levels(k, l) && Leaves(t, l) && Nest(l) <= d
    requires ParseAt(t, k + 1, us, d) == Got(r, rest) && vs == OpTokens(op) + us && ts == Toks(t, l, vs)
    ensures ParseAt(t, k, ts, d) == Operators(t, k, Binary(op, l, r), rest, d)
    decreases l, 32
  {
    OperatorEnds(op, us, vs);
    ReadLeft(t, k, l, ts, vs, d);
    LeftStep(t, l, op, r, us, vs, rest, d);
  }

  lemma {:induction false} ReadPostfix(t: Tables, e: Expr, rest: seq<Token>, d: nat)
    requires Levels(9, e) && Leaves(t, e) && Nest(e) <= d && NoCall(rest)
    ensures ParseAt(t, 9, Toks(t, e, rest), d) == Postfix(t, e, rest, d)
    decreases e, 5
  {
    match e
    case Property(o, key) => ReadProperty(t, o, key, Toks(t, e, rest), rest, d);
    case Subscript(b, i) => ReadSubscript(t, b, i, Toks(t, e, rest), rest, d);
    case Slice(b, s, n) => ReadSlice(t, b, s, n, Toks(t, e, rest), rest, d);
    case _ => ReadOperand(t, e, rest, d);
  }

  lemma {:induction false} ReadOperand(t: Tables, e: Expr, rest: seq<Token>, d: nat)
    requires !e.Property? && !e.Subscript? && !e.Slice?
    requires Levels(9, e) && Leaves(t, e) && Nest(e) <= d && NoCall(rest)
    ensures ParseAt(t, 9, Toks(t, e, rest), d) == Postfix(t, e, rest, d)
    decreases e, 5, 0
  {
    ReadPrimary(t, e, rest, d);
  }

  lemma {:induction false} ReadProperty(t: Tables, o: Expr, key: string, ts: seq<Token>, rest: seq<Token>, d: nat)
    requires Levels(9, o) && Leaves(t, Property(o, key)) && Nest(o) <= d && NoCall(rest)
    requires ts == Toks(t, o, [Sym(Dot)] + ([KeyToken(t, key)] + rest))
    ensures ParseAt(t, 9, ts, d) == Postfix(t, Property(o, key), rest, d)
    decreases Property(o, key), 4
  {
    var us := [KeyToken(t, key)] + rest;
    DotNoCall(t, key, rest);
    KeyName(t, key, rest);
    ReadPostfix(t, o, [Sym(Dot)] + us, d);
    assert ([Sym(Dot)] + us)[1..] == us;
  }

  /** Reading an index after `b` turns the loop of the postfixes once. */
  lemma {:induction false} ReadIndexed(
    t: Tables, b: Expr, ts: seq<Token>, us: seq<Token>, x: Expr, rest: seq<Token>, d: nat)
    requires Levels(9, b) && Leaves(t, b) && Nest(b) <= d
    requires ParseIndex(t, b, us, d) == Got(x, rest) && ts == Toks(t, b, [Sym(LBracket)] + us)
    ensures ParseAt(t, 9, ts, d) == Postfix(t, x, rest, d)
    decreases b, 6
  {
    BracketNoCall(us);
    ReadPostfix(t, b, [Sym(LBracket)] + us, d);
    assert ([Sym(LBracket)] + us)[1..] == us;
  }

  lemma {:induction false} ReadSubscript(t: Tables, b: Expr, i: Expr, ts: seq<Token>, rest: seq<Token>, d: nat)
    requires Levels(9, b) && Leaves(t, b) && Nest(b) <= d && Levels(0, i) && Leaves(t, i) && Nest(i) < d
    requires ts == Toks(t, b, [Sym(LBracket)] + Toks(t, i, [Sym(RBracket)] + rest))
    ensures ParseAt(t, 9, ts, d) == Postfix(t, Subscript(b, i), rest, d)
    decreases Subscript(b, i), 3
  {
    ReadIndex(t, b, i, rest, d);
    ReadIndexed(t, b, ts, Toks(t, i, [Sym(RBracket)] + rest), Subscript(b, i), rest, d);
  }

  lemma {:induction false} ReadIndex(t: Tables, b: Expr, i: Expr, rest: seq<Token>, d: nat)
    requires Levels(0, i) && Leaves(t, i) && Nest(i) < d
    ensures ParseIndex(t, b, Toks(t, i, [Sym(RBracket)] + rest), d) == Got(Subscript(b, i), rest)
    decreases Subscript(b, i), 2
  {
    FirstToken(t, 0, i, [Sym(RBracket)] + rest);
    CloserStops(RBracket, rest);
    ReadExpr(t, i, [Sym(RBracket)] + rest, d);
    IndexStep(t, b, i, Toks(t, i, [Sym(RBracket)] + rest), rest, d);
  }

  lemma IndexStep(t: Tables, b: Expr, i: Expr, us: seq<Token>, rest: seq<Token>, d: nat)
    requires !AtSym(us, DotDot) && ParseExpr(t, us, d) == Got(i, [Sym(RBracket)] + rest)
    ensures ParseIndex(t, b, us, d) == Got(Subscript(b, i), rest)
  {
    assert ([Sym(RBracket)] + rest)[1..] == rest;
  }

  lemma {:induction false} ReadSlice(
    t: Tables, b: Expr, s: Option<Expr>, n: Option<Expr>, ts: seq<Token>, rest: seq<Token>, d: nat)
    requires Levels(9, b) && Leaves(t, b) && Nest(b) <= d
    requires s.Some? ==> Levels(0, s.value) && Leaves(t, s.value) && Nest(s.value) < d
    requires n.Some? ==> Levels(0, n.value) && Leaves(t, n.value) && Nest(n.value) < d
    requires ts == Toks(t, b, [Sym(LBracket)] + ToksOpt(t, s, [Sym(DotDot)] + ToksOpt(t, n, [Sym(RBracket)] + rest)))
    ensures ParseAt(t, 9, ts, d) == Postfix(t, Slice(b, s, n), rest, d)
    decreases Slice(b, s, n), 4
  {
    var end := ToksOpt(t, n, [Sym(RBracket)] + rest);
    ReadSliceEnd(t, b, s, n, rest, d);
    ReadSliceStart(t, b, s, end, Slice(b, s, n), rest, d);
    ReadIndexed(t, b, ts, ToksOpt(t, s, [Sym(DotDot)] + end), Slice(b, s, n), rest, d);
  }

  lemma {:induction false} ReadSliceStart(
    t: Tables, b: Expr, s: Option<Expr>, end: seq<Token>, x: Expr, rest: seq<Token>, d: nat)
    requires s.Some? ==> Levels(0, s.value) && Leaves(t, s.value) && Nest(s.value) < d
    requires SliceEnd(t, b, s, end, d) == Got(x, rest)
    requires x.Slice? && x.start == s
    ensures ParseIndex(t, b, ToksOpt(t, s, [Sym(DotDot)] + end), d) == Got(x, rest)
    decreases x, 2
  {
    assert ([Sym(DotDot)] + end)[1..] == end;
    if s.Some? {
      FirstToken(t, 0, s.value, [Sym(DotDot)] + end);
      CloserStops(DotDot, end);
      ReadExpr(t, s.value, [Sym(DotDot)] + end, d);
    }
  }

  lemma {:induction false} ReadSliceEnd(t: Tables, b: Expr, s: Option<Expr>, n: Option<Expr>, rest: seq<Token>, d: nat)
    requires n.Some? ==> Levels(0, n.value) && Leaves(t, n.value) && Nest(n.value) < d
    ensures SliceEnd(t, b, s, ToksOpt(t, n, [Sym(RBracket)] + rest), d) == Got(Slice(b, s, n), rest)
    decreases Slice(b, s, n), 2
  {
    assert ([Sym(RBracket)] + rest)[1..] == rest;
    if n.Some? {
      FirstToken(t, 0, n.value, [Sym(RBracket)] + rest);
      CloserStops(RBracket, rest);
      ReadExpr(t, n.value, [Sym(RBracket)] + rest, d);
    }
  }

  lemma {:induction false} ReadExpr(t: Tables, e: Expr, rest: seq<Token>, d: nat)
    requires Levels(0, e) && Leaves(t, e) && Nest(e) < d && Stops(0, rest)
    ensures ParseExpr(t, Toks(t, e, rest), d) == Got(e, rest)
    decreases e, 31
  {
    ReadAt(t, 0, e, rest, d - 1);
  }

  lemma {:induction false} ReadItems(t: Tables, es: seq<Expr>, close: Symbol, rest: seq<Token>, d: nat)
    requires es != [] && LevelsAll(es) && LeavesAll(t, es) && NestAll(es) <= d && close in {RBracket, RParen}
    ensures ParseItems(t, ToksList(t, es, [Sym(close)] + rest), d) == Got(es, [Sym(close)] + rest)
    decreases es, 2
  {
    var end := [Sym(close)] + rest;
    if |es| == 1 {
      CloserStops(close, rest);
      ReadExpr(t, es[0], end, d);
      assert es == [es[0]];
    } else {
      var more := ToksList(t, es[1..], end);
      CloserStops(Comma, more);
      ReadExpr(t, es[0], [Sym(Comma)] + more, d);
      assert ([Sym(Comma)] + more)[1..] == more;
      ReadItems(t, es[1..], close, rest, d);
      assert [es[0]] + es[1..] == es;
    }
  }

  // ---- primaries -------------------------------------------------------------------------------------------

  lemma {:induction false} ReadPrimary(t: Tables, e: Expr, rest: seq<Token>, d: nat)
    requires !e.Property? && !e.Subscript? && !e.Slice?
    requires Levels(9, e) && Leaves(t, e) && Nest(e) <= d && NoCall(rest)
    ensures ParsePrimary(t, Toks(t, e, rest), d) == Got(e, rest)
    decreases e, 4
  {
    match e
    case ListLit(es) => ReadList(t, es, rest, d);
    case Call(f, distinct, es) =>
      if es == [StarArg] { assert !LeavesAll(t, es); }
      ReadCallNode(t, f, distinct, es, rest, d);
    case Coalesce(es) => ReadCoalesce(t, es, rest, d);
    case Integer(i) => ReadInteger(t, i, rest, d);
    case Identifier(x) => ReadVariable(t, x, rest, d);
    case NullLit => ReadConstant(t, e, Keyword("NULL", "null"), rest, d);
    case Boolean(b) => ReadConstant(t, e, if b then Keyword("TRUE", "true") else Keyword("FALSE", "false"), rest, d);
    case StringLit(s) => ReadConstant(t, e, StringTok(s), rest, d);
    case Parameter(p) => ReadConstant(t, e, Param(p), rest, d);
    case _ =>
  }

  lemma ReadInteger(t: Tables, i: nat, rest: seq<Token>, d: nat)
    ensures ParsePrimary(t, [IntTok(IntText(i))] + rest, d) == Got(Integer(i), rest)
  {
    DigitsValue(i);
    assert ([IntTok(IntText(i))] + rest)[1..] == rest;
  }

  lemma ReadVariable(t: Tables, x: string, rest: seq<Token>, d: nat)
    requires VariableName(t, x) && NoCall(rest)
    ensures ParsePrimary(t, [Ident(x)] + rest, d) == Got(Identifier(x), rest)
  {
    assert ([Ident(x)] + rest)[1..] == rest;
  }

  lemma ReadConstant(t: Tables, e: Expr, tok: Token, rest: seq<Token>, d: nat)
    requires match e
             case NullLit => tok == Keyword("NULL", "null")
             case Boolean(b) => tok == if b then Keyword("TRUE", "true") else Keyword("FALSE", "false")
             case StringLit(s) => tok == StringTok(s)
             case Parameter(p) => tok == Param(p)
             case _ => false
    ensures ParsePrimary(t, [tok] + rest, d) == Got(e, rest)
  {
    assert ([tok] + rest)[1..] == rest;
  }

  /** A path pattern could start here. */
  predicate PathAhead(ts: seq<Token>) {
    AtSym(ts, LParen) || AtWord(ts, "SHORTESTPATH") || AtWord(ts, "ALLSHORTESTPATHS")
    || (AtName(ts) && AtSym(ts[1..], Equals) &&
        (AtSym(ts[2..], LParen) || AtWord(ts[2..], "SHORTESTPATH") || AtWord(ts[2..], "ALLSHORTESTPATHS")))
  }

  lemma NoElements(t: Tables, ts: seq<Token>, d: nat)
    requires !AtSym(ts, LParen) && !AtWord(ts, "SHORTESTPATH") && !AtWord(ts, "ALLSHORTESTPATHS")
    ensures Elements(t, ts, d) == Bad(Mismatch)
  {
    assert ParseNode(t, ts, d) == Bad(Mismatch);
  }

  /** Where no path pattern can start, trying one fails at once. */
  lemma PathFails(t: Tables, ts: seq<Token>, d: nat)
    requires !PathAhead(ts) && d > 0
    ensures ParsePath(t, ts, d) == Bad(Mismatch)
  {
    NoElements(t, if AtName(ts) && AtSym(ts[1..], Equals) then ts[2..] else ts, d - 1);
  }

  /** The tokens of a list do not begin like a comprehension. */
  lemma PlainList(t: Tables, es: seq<Expr>, rest: seq<Token>)
    requires es != [] && LevelsAll(es) && LeavesAll(t, es) && !LooksComprehended(t, es)
    ensures var ts := ToksList(t, es, [Sym(RBracket)] + rest);
            && !AtSym(ts, RBracket) && !AtSym(ts, LParen)
            && !(AtName(ts) && AtWord(ts[1..], "IN"))
            && !(AtName(ts) && AtSym(ts[1..], Equals) && PathAhead(ts[2..]))
  {
    var end := [Sym(RBracket)] + rest;
    var us, ts := ToksList(t, es, []), ToksList(t, es, end);
    assert [] + end == end;
    ToksListConcat(t, es, [], end);
    FirstItem(t, es, []);
    FirstItem(t, es, end);
    assert ts == us + end;
    if AtName(ts) {
      assert ts[1] == if |us| > 1 then us[1] else Sym(RBracket);
      if AtSym(ts[1..], Equals) { NoPath(t, es, us, end); }
    }
  }

  lemma FirstItem(t: Tables, es: seq<Expr>, rest: seq<Token>)
    requires es != [] && LevelsAll(es) && LeavesAll(t, es)
    ensures ToksList(t, es, rest) != [] && Starts(0, ToksList(t, es, rest)[0])
  {
    FirstToken(t, 0, es[0], if |es| == 1 then rest else [Sym(Comma)] + ToksList(t, es[1..], rest));
  }

  lemma NoPath(t: Tables, es: seq<Expr>, us: seq<Token>, end: seq<Token>)
    requires es != [] && LevelsAll(es) && LeavesAll(t, es)
    requires us == ToksList(t, es, []) && |us| > 1 && us[1] == Sym(Equals) && end != [] && end[0] == Sym(RBracket)
    ensures !PathAhead((us + end)[2..])
  {
    EqToksList(t, es, []);
    var ts := us + end;
    assert us[1] == ts[1];
    if |us| > 2 {
      assert Starts(0, us[2]) && ts[2..][0] == us[2];
      if |us| > 3 && us[3] == Sym(Equals) {
        assert ts[2..][1..][0] == us[3];
        assert |us| > 4 ==> Starts(0, us[4]) && ts[2..][2..][0] == us[4];
        assert |us| == 4 ==> ts[2..][2..][0] == end[0];
      } else {
        assert |us| > 3 ==> ts[2..][1..][0] == us[3];
        assert |us| == 3 ==> ts[2..][1..][0] == end[0];
      }
    } else {
      assert ts[2..][0] == end[0];
    }
  }

  lemma ListReads(t: Tables, es: seq<Expr>, us: seq<Token>, rest: seq<Token>, d: nat)
    requires d > 0 && ParseItems(t, us, d) == Got(es, [Sym(RBracket)] + rest)
    requires !AtSym(us, RBracket) && !AtSym(us, LParen) && !(AtName(us) && AtWord(us[1..], "IN"))
    requires !(AtName(us) && AtSym(us[1..], Equals) && PathAhead(us[2..]))
    ensures ParseList(t, us, d) == Got(ListLit(es), rest)
  {
    assert ([Sym(RBracket)] + rest)[1..] == rest;
    if AtName(us) && AtSym(us[1..], Equals) { PathFails(t, us[2..], d); }
  }

  lemma {:induction false} ReadList(t: Tables, es: seq<Expr>, rest: seq<Token>, d: nat)
    requires LevelsAll(es) && LeavesAll(t, es) && !LooksComprehended(t, es) && NestAll(es) <= d
    ensures ParsePrimary(t, Toks(t, ListLit(es), rest), d) == Got(ListLit(es), rest)
    decreases ListLit(es), 3
  {
    var us := ToksList(t, es, [Sym(RBracket)] + rest);
    assert ([Sym(LBracket)] + us)[1..] == us;
    assert ([Sym(RBracket)] + rest)[1..] == rest;
    if es != [] {
      PlainList(t, es, rest);
      ReadItems(t, es, RBracket, rest, d);
      ListReads(t, es, us, rest, d);
    }
  }

  /** The arguments of a call, up to and including its closing parenthesis. */
  lemma {:induction false} ReadArgs(t: Tables, name: string, distinct: bool, es: seq<Expr>, rest: seq<Token>, d: nat)
    requires LevelsAll(es) && LeavesAll(t, es) && NestAll(es) <= d
    ensures ParseCall(t, name, (if distinct then [Kw("DISTINCT")] else []) + ToksList(t, es, [Sym(RParen)] + rest), d)
            == Got(CallNode(t, name, distinct, es), rest)
    decreases es, 3
  {
    var us := ToksList(t, es, [Sym(RParen)] + rest);
    var ts := (if distinct then [Kw("DISTINCT")] else []) + us;
    assert if distinct then ts[1..] == us else ts == us;
    assert ([Sym(RParen)] + rest)[1..] == rest;
    if es != [] {
      FirstItem(t, es, [Sym(RParen)] + rest);
      ReadItems(t, es, RParen, rest, d);
    }
  }

  lemma OpenParen(t: Tables, name: string, us: seq<Token>, d: nat)
    requires !ListFunction(t, name)
    ensures ParsePrimary(t, [Ident(name)] + ([Sym(LParen)] + us), d) == ParseCall(t, name, us, d)
    ensures ParseNamed(t, name, [Sym(LParen)] + us, d) == ParseCall(t, name, us, d)
  {
    assert ([Ident(name)] + ([Sym(LParen)] + us))[1..] == [Sym(LParen)] + us;
    assert ([Sym(LParen)] + us)[1..] == us;
  }

  lemma CallStarts(t: Tables, f: string, us: seq<Token>, d: nat)
    requires FunctionName(t, f)
    ensures ParsePrimary(t, [CallToken(f)] + ([Sym(LParen)] + us), d) == ParseCall(t, f, us, d)
  {
    BuiltInNames(t);
    OpenParen(t, f, us, d);
    assert ([CallToken(f)] + ([Sym(LParen)] + us))[1..] == [Sym(LParen)] + us;
  }

  /** `count(*)`. */
  lemma ReadCountAll(t: Tables, rest: seq<Token>, d: nat)
    ensures ParseCall(t, "count", [Sym(Asterisk)] + ([Sym(RParen)] + rest), d) ==
            Got(Call("count", false, [StarArg]), rest)
  {
    BuiltInNames(t);
    assert ([Sym(Asterisk)] + ([Sym(RParen)] + rest))[1..] == [Sym(RParen)] + rest;
    assert ([Sym(RParen)] + rest)[1..] == rest;
  }

  lemma {:induction false} ReadCallNode(t: Tables, f: string, distinct: bool, es: seq<Expr>, rest: seq<Token>, d: nat)
    requires FunctionName(t, f) && (CountAll(f, distinct, es)
             || (LevelsAll(es) && LeavesAll(t, es) && NestAll(es) <= d))
    ensures ParsePrimary(t, Toks(t, Call(f, distinct, es), rest), d) == Got(Call(f, distinct, es), rest)
    decreases Call(f, distinct, es), 3
  {
    var us := (if distinct then [Kw("DISTINCT")] else []) + ToksList(t, es, [Sym(RParen)] + rest);
    assert ParseCall(t, f, us, d) == Got(Call(f, distinct, es), rest) by {
      if CountAll(f, distinct, es) {
        CountTokens(t, es, rest);
        ReadCountAll(t, rest, d);
      } else {
        PlainCall(t, f, distinct, es);
        ReadArgs(t, f, distinct, es, rest, d);
      }
    }
    CallToks(t, f, distinct, es, rest);
    CallStarts(t, f, us, d);
  }

  lemma CallToks(t: Tables, f: string, distinct: bool, es: seq<Expr>, rest: seq<Token>)
    ensures Toks(t, Call(f, distinct, es), rest) ==
            [CallToken(f)] + ([Sym(LParen)] +
                ((if distinct then [Kw("DISTINCT")] else []) + ToksList(t, es, [Sym(RParen)] + rest)))
  {
  }

  lemma CountTokens(t: Tables, es: seq<Expr>, rest: seq<Token>)
    requires es == [StarArg]
    ensures [] + ToksList(t, es, [Sym(RParen)] + rest) == [Sym(Asterisk)] + ([Sym(RParen)] + rest)
  {
    StarTokens(t, es, [Sym(RParen)] + rest);
  }

  lemma PlainCall(t: Tables, f: string, distinct: bool, es: seq<Expr>)
    requires FunctionName(t, f)
    ensures CallNode(t, f, distinct, es) == Call(f, distinct, es)
  {
    BuiltInNames(t);
  }

  lemma BuiltInNames(t: Tables)
    ensures Lower(t, "count") == "count" && Lower(t, "collect") == "collect" && Lower(t, "coalesce") == "coalesce"
    ensures !ListFunction(t, "count") && !ListFunction(t, "collect") && !ListFunction(t, "coalesce")
  {
    assert Map(LowerChar, "count") == "count" && Map(LowerChar, "collect") == "collect";
    assert Map(LowerChar, "coalesce") == "coalesce";
    assert "count"[0] == 'c' && "collect"[0] == 'c' && "coalesce"[0] == 'c';
  }

  lemma {:induction false} ReadCoalesce(t: Tables, es: seq<Expr>, rest: seq<Token>, d: nat)
    requires LevelsAll(es) && LeavesAll(t, es) && NestAll(es) <= d
    ensures ParsePrimary(t, Toks(t, Coalesce(es), rest), d) == Got(Coalesce(es), rest)
    decreases Coalesce(es), 3
  {
    var us := ToksList(t, es, [Sym(RParen)] + rest);
    CoalesceStarts(t, us, es, d);
    ReadArgs(t, "coalesce", false, es, rest, d);
    assert [] + us == us;
  }

  lemma CoalesceStarts(t: Tables, us: seq<Token>, es: seq<Expr>, d: nat)
    ensures ParsePrimary(t, [Ident("coalesce")] + ([Sym(LParen)] + us), d) == ParseCall(t, "coalesce", us, d)
    ensures CallNode(t, "coalesce", false, es) == Coalesce(es)
  {
    BuiltInNames(t);
    OpenParen(t, "coalesce", us, d);
  }
}
