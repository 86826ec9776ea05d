/** Whatever the parser reads, the tree it builds needs no parentheses when printed; hence the exact round trip. */
module ParserOutput {
  import opened Prelude
  import opened Ast
  import opened Tokens
  import opened Grammar
  import opened Render
  import E = ExprRoundTrip

  lemma LevelsDown(j: nat, k: nat, e: Expr)
    requires Levels(k, e) && j <= k
    ensures Levels(j, e)
  {
  }

  lemma {:induction false} ParsedExpr(t: Tables, ts: seq<Token>, d: nat)
    ensures var r := ParseExpr(t, ts, d); r.Got? ==> Levels(0, r.value)
    decreases |ts|, 12
  {
    if d > 0 { ParsedAt(t, 0, ts, d - 1); }
  }

  lemma {:induction false} ParsedAt(t: Tables, k: nat, ts: seq<Token>, d: nat)
    requires k <= 9
    ensures var r := ParseAt(t, k, ts, d); r.Got? ==> Levels(k, r.value)
    decreases |ts|, 11 - k
  {
    if k == 3 {
      if AtWord(ts, "NOT") {
        ParsedAt(t, 3, ts[1..], d);
      } else {
        ParsedAt(t, 4, ts, d);
        var r := ParseAt(t, 4, ts, d);
        if r.Got? { LevelsDown(3, 4, r.value); }
      }
    } else if k == 7 {
      ParsedPow(t, ts, d);
    } else if k == 8 {
      ParsedSign(t, ts, d);
    } else if k == 9 {
      ParsedPrimary(t, ts, d);
      var r := ParsePrimary(t, ts, d);
      if r.Got? { ParsedPostfix(t, r.value, r.rest, d); }
    } else {
      ParsedAt(t, k + 1, ts, d);
      var r := ParseAt(t, k + 1, ts, d);
      if r.Got? {
        LevelsDown(k, k + 1, r.value);
        ParsedOperators(t, k, r.value, r.rest, d);
      }
    }
  }

  lemma {:induction false} ParsedPow(t: Tables, ts: seq<Token>, d: nat)
    ensures var r := ParseAt(t, 7, ts, d); r.Got? ==> Levels(7, r.value)
    decreases |ts|, 4, 0
  {
    ParsedAt(t, 8, ts, d);
    var left := ParseAt(t, 8, ts, d);
    if left.Got? {
      LevelsDown(7, 8, left.value);
      if AtSym(left.rest, Caret) { ParsedPow(t, left.rest[1..], d); }
    }
  }

  lemma {:induction false} ParsedSign(t: Tables, ts: seq<Token>, d: nat)
    ensures var r := ParseAt(t, 8, ts, d); r.Got? ==> Levels(8, r.value)
    decreases |ts|, 3, 0
  {
    if AtSym(ts, Plus) || AtSym(ts, Minus) {
      ParsedSign(t, ts[1..], d);
    } else {
      ParsedAt(t, 9, ts, d);
      var r := ParseAt(t, 9, ts, d);
      if r.Got? { LevelsDown(8, 9, r.value); }
    }
  }

  lemma OperatorLevel(k: nat, ts: seq<Token>)
    requires OpAt(k, ts).Op?
    ensures OpLevel(OpAt(k, ts).op) == k && !OpAt(k, ts).op.PowOp?
  {
  }

  lemma {:induction false} ParsedStep(t: Tables, k: nat, left: Expr, ts: seq<Token>, d: nat)
    requires LeftLevel(k) && Levels(k, left)
    ensures var r := OperatorStep(t, k, left, ts, d); r.Got? && r.value.Some? ==> Levels(k, r.value.value)
    decreases |ts|, 13
  {
    var o := OpAt(k, ts);
    if o.Op? {
      OperatorLevel(k, ts);
      ParsedAt(t, k + 1, ts[o.size..], d);
    }
  }

  lemma {:induction false} ParsedOperators(t: Tables, k: nat, left: Expr, ts: seq<Token>, d: nat)
    requires LeftLevel(k) && Levels(k, left)
    ensures var r := Operators(t, k, left, ts, d); r.Got? ==> Levels(k, r.value)
    decreases |ts|, 14
  {
    ParsedStep(t, k, left, ts, d);
    var r := OperatorStep(t, k, left, ts, d);
    if r.Got? && r.value.Some? { ParsedOperators(t, k, r.value.value, r.rest, d); }
  }

  lemma {:induction false} ParsedPostfix(t: Tables, e: Expr, ts: seq<Token>, d: nat)
    requires Levels(9, e)
    ensures var r := Postfix(t, e, ts, d); r.Got? ==> Levels(9, r.value)
    decreases |ts|, 14
  {
    if AtSym(ts, LBracket) { ParsedIndex(t, e, ts[1..], d); }
    var r := PostfixStep(t, e, ts, d);
    if r.Got? && r.value.Some? { ParsedPostfix(t, r.value.value, r.rest, d); }
  }

  lemma {:induction false} ParsedIndex(t: Tables, b: Expr, ts: seq<Token>, d: nat)
    requires Levels(9, b)
    ensures var r := ParseIndex(t, b, ts, d); r.Got? ==> Levels(9, r.value)
    decreases |ts|, 15
  {
    if AtSym(ts, DotDot) {
      ParsedSliceEnd(t, b, None, ts[1..], d);
    } else {
      ParsedExpr(t, ts, d);
      var r := ParseExpr(t, ts, d);
      if r.Got? && AtSym(r.rest, DotDot) { ParsedSliceEnd(t, b, Some(r.value), r.rest[1..], d); }
    }
  }

  lemma {:induction false} ParsedSliceEnd(t: Tables, b: Expr, s: Option<Expr>, ts: seq<Token>, d: nat)
    requires Levels(9, b) && (s.Some? ==> Levels(0, s.value))
    ensures var r := SliceEnd(t, b, s, ts, d); r.Got? ==> Levels(9, r.value)
    decreases |ts|, 14
  {
    if !AtSym(ts, RBracket) { ParsedExpr(t, ts, d); }
  }

  lemma {:induction false} ParsedItems(t: Tables, ts: seq<Token>, d: nat)
    ensures var r := ParseItems(t, ts, d); r.Got? ==> LevelsAll(r.value)
    decreases |ts|, 14
  {
    ParsedExpr(t, ts, d);
    var r := ParseExpr(t, ts, d);
    if r.Got? && AtSym(r.rest, Comma) { ParsedItems(t, r.rest[1..], d); }
  }

  lemma {:induction false} ParsedPrimary(t: Tables, ts: seq<Token>, d: nat)
    ensures var r := ParsePrimary(t, ts, d); r.Got? ==> Levels(9, r.value)
    decreases |ts|, 1
  {
    if ts != [] {
      match ts[0]
      case Ident(name) => ParsedNamed(t, name, ts[1..], d);
      case Keyword(word, _) => if CallableWord(word).Some? { ParsedNamed(t, CallableWord(word).value, ts[1..], d); }
      case Sym(s) => ParsedList(t, ts[1..], d);
      case _ =>
    }
  }

  lemma {:induction false} ParsedNamed(t: Tables, name: string, ts: seq<Token>, d: nat)
    ensures var r := ParseNamed(t, name, ts, d); r.Got? ==> Levels(9, r.value)
    decreases |ts|, 15
  {
    if AtSym(ts, LParen) { ParsedCall(t, name, ts[1..], d); }
  }

  lemma {:induction false} ParsedCall(t: Tables, name: string, ts: seq<Token>, d: nat)
    ensures var r := ParseCall(t, name, ts, d); r.Got? ==> Levels(9, r.value)
    decreases |ts|, 15
  {
    var us := if AtWord(ts, "DISTINCT") then ts[1..] else ts;
    var vs := if AtSym(us, Asterisk) then us[1..] else us;
    ParsedItems(t, vs, d);
    StarFits();
    var items := ParseItems(t, vs, d);
    NodeFits(t, name, AtWord(ts, "DISTINCT"), if items.Got? then items.value else []);
    NodeFits(t, name, AtWord(ts, "DISTINCT"), []);
  }

  lemma NodeFits(t: Tables, name: string, distinct: bool, es: seq<Expr>)
    requires LevelsAll(es)
    ensures Levels(9, CallNode(t, name, distinct, es))
  {
  }

  lemma StarFits()
    ensures LevelsAll([StarArg]) && LevelsAll([])
  {
    assert [StarArg][1..] == [];
  }

  lemma {:induction false} ParsedList(t: Tables, ts: seq<Token>, d: nat)
    ensures var r := ParseList(t, ts, d); r.Got? ==> Levels(9, r.value)
    decreases |ts|, 15
  {
    ParsedItems(t, ts, d);
  }

  /** Printing and parsing an expression gives it back, and stops at the follow token, exactly when it needs
      no parentheses. */
  lemma RoundTripExactly(t: Tables, e: Expr, rest: seq<Token>, d: nat)
    requires Leaves(t, e) && Nest(e) < d && E.Stops(0, rest)
    ensures ParseExpr(t, Toks(t, e, rest), d) == Got(e, rest) <==> Levels(0, e)
  {
    ParsedExpr(t, Toks(t, e, rest), d);
    if Levels(0, e) { E.ReadExpr(t, e, rest, d); }
  }
}
