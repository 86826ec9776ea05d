/** What the renderer prints for an expression, as text and as the tokens of that text. */
module Render {
  import opened Prelude
  import opened Ast
  import opened Tokens
  import opened Spelling
  import G = Grammar

  // ---- text ------------------------------------------------------------------------------------

  /** `str(i)`. */
  function Digits(n: nat): (s: string)
    ensures G.Decimal(s)
  {
    (if n < 10 then "" else Digits(n / 10)) + [(n % 10 + '0' as int) as char]
  }

  function IntText(i: int): string {
    if i < 0 then "-" + Digits(-i) else Digits(i)
  }

  /** An expression as the renderer prints it. It never prints a parenthesis around an operand. */
  function Text(t: Tables, e: Expr): string
    decreases e, 1
  {
    match e
    case NullLit => "null"
    case Boolean(b) => if b then "true" else "false"
    case Integer(i) => IntText(i)
    case FloatLit(r) => t.realText(r)
    case StringLit(s) => StringLiteral(s)
    case Parameter(p) => "$" + p
    case Identifier(x) => Spelling.Identifier(t, x)
    case Property(o, key) => Text(t, o) + "." + Spelling.Identifier(t, key)
    case ListLit(es) => "[" + TextList(t, es) + "]"
    case Binary(op, l, r) => Text(t, l) + " " + OpName(op) + " " + Text(t, r)
    case Not(a) => "NOT " + Text(t, a)
    case Neg(a) => "-" + Text(t, a)
    case IsNull(a, negated) => Text(t, a) + (if negated then " IS NOT NULL" else " IS NULL")
    case Subscript(b, i) => Text(t, b) + "[" + Text(t, i) + "]"
    case Slice(b, s, n) =>
      Text(t, b) + "[" + TextOpt(t, s) + ".." + TextOpt(t, n) + "]"
    case Call(f, distinct, es) => f + "(" + (if distinct then "DISTINCT " else "") + TextList(t, es) + ")"
    case Coalesce(es) => "coalesce(" + TextList(t, es) + ")"
    case StarArg => "*"
  }

  function TextOpt(t: Tables, o: Option<Expr>): string
    decreases o, 0
  {
    if o.Some? then Text(t, o.value) else ""
  }

  /** `", ".join(...)`. */
  function TextList(t: Tables, es: seq<Expr>): string
    decreases es, 0
  {
    if es == [] then "" else if |es| == 1 then Text(t, es[0]) else Text(t, es[0]) + ", " + TextList(t, es[1..])
  }

  // ---- tokens ------------------------------------------------------------------------------------

  function Kw(w: string): Token { Keyword(w, w) }

  /** A property key: any name, even a keyword. */
  function KeyToken(t: Tables, key: string): Token {
    if PlainName(t, key) && IsKeyword(t, key) then Keyword(Upper(t, key), key) else Ident(key)
  }

  function OpSymbol(op: BinOp): Symbol {
    match op
    case EqOp => Equals case NeqOp => NotEqual case LtOp => Less case GtOp => Greater case LteOp => LessEq
    case GteOp => GreaterEq case RegexOp => Regex
    case AddOp => Plus case SubOp => Minus case MulOp => Asterisk case DivOp => Slash case ModOp => Percent
    case _ => Caret
  }

  function OpTokens(op: BinOp): seq<Token> {
    match op
    case OrOp => [Kw("OR")] case XorOp => [Kw("XOR")] case AndOp => [Kw("AND")]
    case InOp => [Kw("IN")] case ContainsOp => [Kw("CONTAINS")]
    case StartsOp => [Kw("STARTS"), Kw("WITH")] case EndsOp => [Kw("ENDS"), Kw("WITH")]
    case _ => [Sym(OpSymbol(op))]
  }

  /** Two functions are named by keywords. */
  function CallToken(f: string): Token {
    if f == "count" then Keyword("COUNT", f) else if f == "collect" then Keyword("COLLECT", f) else Ident(f)
  }

  /** The tokens of `e`, followed by the tokens `k`. */
  function Toks(t: Tables, e: Expr, k: seq<Token>): seq<Token>
    decreases e, 1
  {
    match e
    case NullLit => [Keyword("NULL", "null")] + k
    case Boolean(b) => [if b then Keyword("TRUE", "true") else Keyword("FALSE", "false")] + k
    case Integer(i) => [IntTok(IntText(i))] + k
    case FloatLit(r) => [FloatTok(t.realText(r))] + k
    case StringLit(s) => [StringTok(s)] + k
    case Parameter(p) => [Param(p)] + k
    case Identifier(x) => [Ident(x)] + k
    case Property(o, key) => Toks(t, o, [Sym(Dot)] + ([KeyToken(t, key)] + k))
    case ListLit(es) => [Sym(LBracket)] + ToksList(t, es, [Sym(RBracket)] + k)
    case Binary(op, l, r) => Toks(t, l, OpTokens(op) + Toks(t, r, k))
    case Not(a) => [Kw("NOT")] + Toks(t, a, k)
    case Neg(a) => [Sym(Minus)] + Toks(t, a, k)
    case IsNull(a, negated) => Toks(t, a, [Kw("IS")] + ((if negated then [Kw("NOT")] else []) + ([Kw("NULL")] + k)))
    case Subscript(b, i) => Toks(t, b, [Sym(LBracket)] + Toks(t, i, [Sym(RBracket)] + k))
    case Slice(b, s, n) =>
      Toks(t, b, [Sym(LBracket)] + ToksOpt(t, s, [Sym(DotDot)] + ToksOpt(t, n, [Sym(RBracket)] + k)))
    case Call(f, distinct, es) =>
      [CallToken(f)] + ([Sym(LParen)] +
          ((if distinct then [Kw("DISTINCT")] else []) + ToksList(t, es, [Sym(RParen)] + k)))
    case Coalesce(es) => [Ident("coalesce")] + ([Sym(LParen)] + ToksList(t, es, [Sym(RParen)] + k))
    case StarArg => [Sym(Asterisk)] + k
  }

  function ToksOpt(t: Tables, o: Option<Expr>, k: seq<Token>): seq<Token>
    decreases o, 0
  {
    if o.Some? then Toks(t, o.value, k) else k
  }

  function ToksList(t: Tables, es: seq<Expr>, k: seq<Token>): seq<Token>
    decreases es, 0
  {
    if es == [] then k
    else if |es| == 1 then Toks(t, es[0], k)
    else Toks(t, es[0], [Sym(Comma)] + ToksList(t, es[1..], k))
  }

  // ---- which trees print without losing structure ---------------------------------------------------

  function OpLevel(op: BinOp): nat {
    match op
    case OrOp => 0 case XorOp => 1 case AndOp => 2
    case AddOp => 5 case SubOp => 5
    case MulOp => 6 case DivOp => 6 case ModOp => 6
    case PowOp => 7
    case _ => 4
  }

  /** `e`, printed where the grammar expects level `k`, needs no parentheses, nor does anything inside it. */
  predicate Levels(k: nat, e: Expr)
    decreases e, 1
  {
    match e
    case Property(o, _) => Levels(9, o)
    case ListLit(es) => LevelsAll(es)
    case Binary(op, l, r) =>
      && k <= OpLevel(op)
      && (if op.PowOp? then Levels(8, l) && Levels(7, r) else Levels(OpLevel(op), l) && Levels(OpLevel(op) + 1, r))
    case Not(a) => k <= 3 && Levels(3, a)
    case Neg(a) => k <= 8 && Levels(8, a)
    case IsNull(a, _) => k <= 4 && Levels(4, a)
    case Subscript(b, i) => Levels(9, b) && Levels(0, i)
    case Slice(b, s, n) => Levels(9, b) && (s.Some? ==> Levels(0, s.value)) && (n.Some? ==> Levels(0, n.value))
    case Call(_, _, es) => LevelsAll(es)
    case Coalesce(es) => LevelsAll(es)
    case _ => true
  }

  predicate LevelsAll(es: seq<Expr>)
    decreases es, 0
  {
    es == [] || (Levels(0, es[0]) && LevelsAll(es[1..]))
  }

  predicate VariableName(t: Tables, x: string) {
    !(PlainName(t, x) && IsKeyword(t, x)) && !G.ListFunction(t, x)
  }

  predicate FunctionName(t: Tables, f: string) {
    || f == "count" || f == "collect"
    || (PlainName(t, f) && !IsKeyword(t, f) && !G.ListFunction(t, f) && Lower(t, f) != "coalesce")
  }

  /** A list that would be read as a comprehension. */
  predicate LooksComprehended(t: Tables, es: seq<Expr>) {
    var ts := ToksList(t, es, []);
    G.AtName(ts) && G.AtWord(ts[1..], "IN")
  }

  /** The parts of `e` are ones the renderer and the parser agree on. */
  predicate Leaves(t: Tables, e: Expr)
    decreases e, 1
  {
    match e
    case Integer(i) => i >= 0
    case FloatLit(_) => false
    case Parameter(p) => p != "" && forall i :: 0 <= i < |p| ==> WordChar(t, p[i])
    case Identifier(x) => VariableName(t, x)
    case Property(o, _) => Leaves(t, o)
    case ListLit(es) => LeavesAll(t, es) && !LooksComprehended(t, es)
    case Binary(_, l, r) => Leaves(t, l) && Leaves(t, r)
    case Not(a) => Leaves(t, a)
    case Neg(a) => Leaves(t, a)
    case IsNull(a, _) => Leaves(t, a)
    case Subscript(b, i) => Leaves(t, b) && Leaves(t, i)
    case Slice(b, s, n) => Leaves(t, b) && (s.Some? ==> Leaves(t, s.value)) && (n.Some? ==> Leaves(t, n.value))
    case Call(f, distinct, es) => FunctionName(t, f) && (CountAll(f, distinct, es) || LeavesAll(t, es))
    case Coalesce(es) => LeavesAll(t, es)
    case StarArg => false
    case _ => true
  }

  predicate CountAll(f: string, distinct: bool, es: seq<Expr>) {
    f == "count" && !distinct && es == [StarArg]
  }

  predicate LeavesAll(t: Tables, es: seq<Expr>)
    decreases es, 0
  {
    es == [] || (Leaves(t, es[0]) && LeavesAll(t, es[1..]))
  }

  function Max(a: nat, b: nat): nat { if a < b then b else a }

  /** How deeply the brackets of `e` nest: the levels the parser's guard counts. */
  function Nest(e: Expr): nat
    decreases e, 1
  {
    match e
    case Property(o, _) => Nest(o)
    case ListLit(es) => NestAll(es)
    case Binary(_, l, r) => Max(Nest(l), Nest(r))
    case Not(a) => Nest(a)
    case Neg(a) => Nest(a)
    case IsNull(a, _) => Nest(a)
    case Subscript(b, i) => Max(Nest(b), 1 + Nest(i))
    case Slice(b, s, n) =>
      Max(Nest(b), Max(if s.Some? then 1 + Nest(s.value) else 0, if n.Some? then 1 + Nest(n.value) else 0))
    case Call(_, _, es) => if es == [StarArg] then 0 else NestAll(es)
    case Coalesce(es) => NestAll(es)
    case _ => 0
  }

  function NestAll(es: seq<Expr>): nat
    decreases es, 0
  {
    if es == [] then 0 else Max(1 + Nest(es[0]), NestAll(es[1..]))
  }
}
