/** What the parser accepts as expressions and path patterns, as functions of the rest of the token list. */
module Grammar {
  import opened Prelude
  import opened Ast
  import opened Tokens

  /** Why parsing stopped. `Unmodelled` marks syntax outside this model, not an error of the parser. */
  datatype Reason = TooDeep | Mismatch | Unmodelled

  datatype Parsed<+T> = Got(value: T, rest: seq<Token>) | Bad(reason: Reason)

  // ---- looking at the next token ---------------------------------------------------------------

  predicate AtSym(ts: seq<Token>, symbol: Symbol) {
    ts != [] && ts[0] == Sym(symbol)
  }

  predicate AtWord(ts: seq<Token>, word: string) {
    ts != [] && ts[0].Keyword? && ts[0].word == word
  }

  predicate AtName(ts: seq<Token>) {
    ts != [] && ts[0].Ident?
  }

  /** `_parse_unquoted_name`: keywords may be names; a symbol or literal in this place is not modelled. */
  function UnquotedName(ts: seq<Token>): (r: Parsed<string>)
    ensures r.Got? ==> |r.rest| < |ts|
  {
    if ts == [] then Bad(Mismatch)
    else
      match ts[0]
      case Ident(name) => Got(name, ts[1..])
      case Keyword(_, raw) => Got(raw, ts[1..])
      case Sym(s) => Bad(if s in {RBracket, LBrace, Asterisk, Comma, Pipe, Colon, RParen} then Mismatch else Unmodelled)
      case _ => Bad(Unmodelled)
  }

  // ---- integers ------------------------------------------------------------------------------------

  predicate Decimal(s: string) {
    s != "" && forall i :: 0 <= i < |s| ==> '0' <= s[i] <= '9'
  }

  /** `int(text)`. */
  function DecimalValue(s: string): (n: nat)
    requires forall i :: 0 <= i < |s| ==> '0' <= s[i] <= '9'
  {
    if s == "" then 0 else 10 * DecimalValue(s[..|s| - 1]) + (s[|s| - 1] as int - '0' as int)
  }

  // ---- operators -----------------------------------------------------------------------------------

  datatype Seen = NoOp | Op(op: BinOp, size: nat) | BadOp

  /** The comparison operators, in the order the parser tries them; STARTS and ENDS must be followed by WITH. */
  function ComparisonAt(ts: seq<Token>): Seen {
    if AtSym(ts, Equals) then Op(EqOp, 1)
    else if AtSym(ts, NotEqual) then Op(NeqOp, 1)
    else if AtSym(ts, Less) then Op(LtOp, 1)
    else if AtSym(ts, Greater) then Op(GtOp, 1)
    else if AtSym(ts, LessEq) then Op(LteOp, 1)
    else if AtSym(ts, GreaterEq) then Op(GteOp, 1)
    else if AtSym(ts, Regex) then Op(RegexOp, 1)
    else if AtWord(ts, "STARTS") then if AtWord(ts[1..], "WITH") then Op(StartsOp, 2) else BadOp
    else if AtWord(ts, "ENDS") then if AtWord(ts[1..], "WITH") then Op(EndsOp, 2) else BadOp
    else if AtWord(ts, "CONTAINS") then Op(ContainsOp, 1)
    else if AtWord(ts, "IN") then Op(InOp, 1)
    else NoOp
  }

  /** The binary operator of precedence level `k` at the front: OR, XOR, AND, comparisons, sums, products. */
  function OpAt(k: nat, ts: seq<Token>): (o: Seen)
    ensures o.Op? ==> 0 < o.size <= |ts|
  {
    match k
    case 0 => if AtWord(ts, "OR") then Op(OrOp, 1) else NoOp
    case 1 => if AtWord(ts, "XOR") then Op(XorOp, 1) else NoOp
    case 2 => if AtWord(ts, "AND") then Op(AndOp, 1) else NoOp
    case 4 => ComparisonAt(ts)
    case 5 => if AtSym(ts, Plus) then Op(AddOp, 1) else if AtSym(ts, Minus) then Op(SubOp, 1) else NoOp
    case 6 =>
      if AtSym(ts, Asterisk) then Op(MulOp, 1) else if AtSym(ts, Slash) then Op(DivOp, 1)
      else if AtSym(ts, Percent) then Op(ModOp, 1) else NoOp
    case _ => NoOp
  }

  /** `IS NULL` and `IS NOT NULL` bind like comparisons: whether negated, and what follows. */
  function NullTest(ts: seq<Token>): (r: Parsed<bool>)
    requires AtWord(ts, "IS")
    ensures r.Got? ==> |r.rest| < |ts|
  {
    var negated := AtWord(ts[1..], "NOT");
    var us := if negated then ts[2..] else ts[1..];
    if AtWord(us, "NULL") then Got(negated, us[1..]) else Bad(Mismatch)
  }

  predicate LeftLevel(k: nat) {
    k in {0, 1, 2, 4, 5, 6}
  }

  // ---- the ladder ----------------------------------------------------------------------------------

  /** `parse_expression`; `d` counts the nesting levels still allowed. */
  function ParseExpr(t: Tables, ts: seq<Token>, d: nat): (r: Parsed<Expr>)
    ensures r.Got? ==> |r.rest| < |ts|
    decreases |ts|, 12
  {
    if d == 0 then Bad(TooDeep) else ParseAt(t, 0, ts, d - 1)
  }

  /** The rungs of the ladder by number: 3 is NOT, 7 is `^`, 8 the signs, 9 properties and subscripts; the
      others are left-associative. */
  function ParseAt(t: Tables, k: nat, ts: seq<Token>, d: nat): (r: Parsed<Expr>)
    requires k <= 9
    ensures r.Got? ==> |r.rest| < |ts|
    decreases |ts|, 11 - k, 1
  {
    if k == 3 then ParseNot(t, ts, d)
    else if k == 7 then ParsePow(t, ts, d)
    else if k == 8 then ParseSign(t, ts, d)
    else if k == 9 then ParsePostfix(t, ts, d)
    else ParseLeft(t, k, ts, d)
  }

  function ParseNot(t: Tables, ts: seq<Token>, d: nat): (r: Parsed<Expr>)
    ensures r.Got? ==> |r.rest| < |ts|
    decreases |ts|, 8, 0
  {
    if AtWord(ts, "NOT") then
      match ParseNot(t, ts[1..], d)
      case Bad(why) => Bad(why)
      case Got(e, rest) => Got(Not(e), rest)
    else ParseAt(t, 4, ts, d)
  }

  function ParsePow(t: Tables, ts: seq<Token>, d: nat): (r: Parsed<Expr>)
    ensures r.Got? ==> |r.rest| < |ts|
    decreases |ts|, 4, 0
  {
    match ParseAt(t, 8, ts, d)
    case Bad(why) => Bad(why)
    case Got(left, rest) =>
      if AtSym(rest, Caret) then
        match ParsePow(t, rest[1..], d)
        case Bad(why) => Bad(why)
        case Got(right, rest') => Got(Binary(PowOp, left, right), rest')
      else Got(left, rest)
  }

  function ParseSign(t: Tables, ts: seq<Token>, d: nat): (r: Parsed<Expr>)
    ensures r.Got? ==> |r.rest| < |ts|
    decreases |ts|, 3, 0
  {
    if AtSym(ts, Plus) then ParseSign(t, ts[1..], d)
    else if AtSym(ts, Minus) then
      match ParseSign(t, ts[1..], d)
      case Bad(why) => Bad(why)
      case Got(e, rest) => Got(Neg(e), rest)
    else ParseAt(t, 9, ts, d)
  }

  function ParsePostfix(t: Tables, ts: seq<Token>, d: nat): (r: Parsed<Expr>)
    ensures r.Got? ==> |r.rest| < |ts|
    decreases |ts|, 2, 0
  {
    match ParsePrimary(t, ts, d)
    case Bad(why) => Bad(why)
    case Got(e, rest) => Postfix(t, e, rest, d)
  }

  function ParseLeft(t: Tables, k: nat, ts: seq<Token>, d: nat): (r: Parsed<Expr>)
    requires LeftLevel(k)
    ensures r.Got? ==> |r.rest| < |ts|
    decreases |ts|, 11 - k, 0
  {
    match ParseAt(t, k + 1, ts, d)
    case Bad(why) => Bad(why)
    case Got(left, rest) => Operators(t, k, left, rest, d)
  }

  /** One turn of the `while` of a left-associative level: the larger left operand, or nothing more to read. */
  function OperatorStep(t: Tables, k: nat, left: Expr, ts: seq<Token>, d: nat): (r: Parsed<Option<Expr>>)
    requires LeftLevel(k)
    ensures r.Got? ==> if r.value.Some? then |r.rest| < |ts| else r.rest == ts
    decreases |ts|, 13
  {
    match OpAt(k, ts)
    case BadOp => Bad(Mismatch)
    case Op(op, n) =>
      (match ParseAt(t, k + 1, ts[n..], d)
       case Bad(why) => Bad(why)
       case Got(right, rest) => Got(Some(Binary(op, left, right)), rest))
    case NoOp =>
      if k == 4 && AtWord(ts, "IS") then
        match NullTest(ts)
        case Bad(why) => Bad(why)
        case Got(negated, rest) => Got(Some(IsNull(left, negated)), rest)
      else Got(None, ts)
  }

  function Operators(t: Tables, k: nat, left: Expr, ts: seq<Token>, d: nat): (r: Parsed<Expr>)
    requires LeftLevel(k)
    ensures r.Got? ==> |r.rest| <= |ts|
    decreases |ts|, 14
  {
    match OperatorStep(t, k, left, ts, d)
    case Bad(why) => Bad(why)
    case Got(None, _) => Got(left, ts)
    case Got(Some(more), rest) => Operators(t, k, more, rest, d)
  }

  /** One turn of the `while` of `parse_postfix`: a property, a subscript or a slice. */
  function PostfixStep(t: Tables, e: Expr, ts: seq<Token>, d: nat): (r: Parsed<Option<Expr>>)
    ensures r.Got? ==> if r.value.Some? then |r.rest| < |ts| else r.rest == ts
    decreases |ts|, 13
  {
    if AtSym(ts, Dot) then
      match UnquotedName(ts[1..])
      case Bad(why) => Bad(why)
      case Got(name, rest) => if AtSym(rest, LBrace) then Bad(Unmodelled) else Got(Some(Property(e, name)), rest)
    else if AtSym(ts, LBrace) && e.Identifier? then Bad(Unmodelled)
    else if AtSym(ts, LBracket) then
      match ParseIndex(t, e, ts[1..], d)
      case Bad(why) => Bad(why)
      case Got(x, rest) => Got(Some(x), rest)
    else if AtSym(ts, Colon) && e.Identifier? then Bad(Unmodelled)
    else Got(None, ts)
  }

  function Postfix(t: Tables, e: Expr, ts: seq<Token>, d: nat): (r: Parsed<Expr>)
    ensures r.Got? ==> |r.rest| <= |ts|
    decreases |ts|, 14
  {
    match PostfixStep(t, e, ts, d)
    case Bad(why) => Bad(why)
    case Got(None, _) => Got(e, ts)
    case Got(Some(more), rest) => Postfix(t, more, rest, d)
  }

  /** What follows `base[`: a subscript, or a slice with either bound left out. */
  function ParseIndex(t: Tables, base: Expr, ts: seq<Token>, d: nat): (r: Parsed<Expr>)
    ensures r.Got? ==> |r.rest| <= |ts|
    decreases |ts|, 15
  {
    if AtSym(ts, DotDot) then SliceEnd(t, base, None, ts[1..], d)
    else
      match ParseExpr(t, ts, d)
      case Bad(why) => Bad(why)
      case Got(first, rest) =>
        if AtSym(rest, DotDot) then SliceEnd(t, base, Some(first), rest[1..], d)
        else if AtSym(rest, RBracket) then Got(Subscript(base, first), rest[1..])
        else Bad(Mismatch)
  }

  function SliceEnd(t: Tables, base: Expr, start: Option<Expr>, ts: seq<Token>, d: nat): (r: Parsed<Expr>)
    ensures r.Got? ==> |r.rest| <= |ts|
    decreases |ts|, 14
  {
    if AtSym(ts, RBracket) then Got(Slice(base, start, None), ts[1..])
    else
      match ParseExpr(t, ts, d)
      case Bad(why) => Bad(why)
      case Got(end, rest) =>
        if AtSym(rest, RBracket) then Got(Slice(base, start, Some(end)), rest[1..]) else Bad(Mismatch)
  }

  /** `parse_expression_list`. */
  function ParseItems(t: Tables, ts: seq<Token>, d: nat): (r: Parsed<seq<Expr>>)
    ensures r.Got? ==> |r.rest| < |ts|
    decreases |ts|, 14, 0
  {
    match ParseExpr(t, ts, d)
    case Bad(why) => Bad(why)
    case Got(e, rest) =>
      if AtSym(rest, Comma) then
        match ParseItems(t, rest[1..], d)
        case Bad(why) => Bad(why)
        case Got(es, rest') => Got([e] + es, rest')
      else Got([e], rest)
  }

  // ---- primaries -------------------------------------------------------------------------------------

  /** Keywords that name functions. */
  function CallableWord(word: string): Option<string> {
    if word == "COUNT" then Some("count")
    else if word == "COLLECT" then Some("collect")
    else if word == "SHORTESTPATH" then Some("shortestPath")
    else if word == "ALLSHORTESTPATHS" then Some("allShortestPaths")
    else if word == "FILTER" then Some("filter")
    else None
  }

  predicate ListFunction(t: Tables, name: string) {
    Lower(t, name) in {"extract", "filter", "reduce"}
  }

  function ParsePrimary(t: Tables, ts: seq<Token>, d: nat): (r: Parsed<Expr>)
    ensures r.Got? ==> |r.rest| < |ts|
    decreases |ts|, 1
  {
    if ts == [] then Bad(Mismatch)
    else
      match ts[0]
      case IntTok(s) => if Decimal(s) then Got(Integer(DecimalValue(s)), ts[1..]) else Bad(Unmodelled)
      case FloatTok(_) => Bad(Unmodelled)
      case StringTok(s) => Got(StringLit(s), ts[1..])
      case Param(p) => Got(Expr.Parameter(p), ts[1..])
      case Ident(name) => ParseNamed(t, name, ts[1..], d)
      case Keyword(word, _) =>
        if word == "TRUE" then Got(Boolean(true), ts[1..])
        else if word == "FALSE" then Got(Boolean(false), ts[1..])
        else if word == "NULL" then Got(NullLit, ts[1..])
        else if word == "COUNT" && AtSym(ts[1..], LBrace) then Bad(Unmodelled)
        else if CallableWord(word).Some? then ParseNamed(t, CallableWord(word).value, ts[1..], d)
        else if word in {"CASE", "EXISTS", "ALL", "ANY", "NONE", "SINGLE"} then Bad(Unmodelled)
        else Bad(Mismatch)
      case Sym(s) =>
        if s == LBracket then ParseList(t, ts[1..], d)
        else if s in {LBrace, LParen} then Bad(Unmodelled)
        else Bad(Mismatch)
  }

  /** The tokens after `.name.name...`, which the parser reads ahead looking for a dotted call. */
  function AfterDots(ts: seq<Token>): (r: Parsed<seq<Token>>)
    decreases |ts|
  {
    if AtSym(ts, Dot) then
      match UnquotedName(ts[1..])
      case Bad(why) => Bad(why)
      case Got(_, rest) => AfterDots(rest)
    else Got(ts, [])
  }

  /** A name: a call when a parenthesis follows, a variable otherwise. */
  function ParseNamed(t: Tables, name: string, ts: seq<Token>, d: nat): (r: Parsed<Expr>)
    ensures r.Got? ==> |r.rest| <= |ts|
    decreases |ts|, 15
  {
    if ListFunction(t, name) then Bad(Unmodelled)
    else
      match AfterDots(ts)
      case Bad(why) => Bad(why)
      case Got(after, _) =>
        if AtSym(ts, Dot) && AtSym(after, LParen) then Bad(Unmodelled)
        else if AtSym(ts, LParen) then ParseCall(t, name, ts[1..], d)
        else Got(Identifier(name), ts)
  }

  /** What follows `name(`. A `*` is swallowed before any arguments, and means something only in `count(*)`. */
  function ParseCall(t: Tables, name: string, ts: seq<Token>, d: nat): (r: Parsed<Expr>)
    ensures r.Got? ==> |r.rest| <= |ts|
    decreases |ts|, 15
  {
    var distinct := AtWord(ts, "DISTINCT");
    var us := if distinct then ts[1..] else ts;
    var star := AtSym(us, Asterisk);
    var vs := if star then us[1..] else us;
    if star && Lower(t, name) == "count" then
      if AtSym(vs, RParen) then Got(Call("count", false, [StarArg]), vs[1..]) else Bad(Mismatch)
    else if AtSym(vs, RParen) then Got(CallNode(t, name, distinct, []), vs[1..])
    else
      match ParseItems(t, vs, d)
      case Bad(why) => Bad(why)
      case Got(es, rest) =>
        if AtSym(rest, RParen) then Got(CallNode(t, name, distinct, es), rest[1..]) else Bad(Mismatch)
  }

  function CallNode(t: Tables, name: string, distinct: bool, args: seq<Expr>): Expr {
    if Lower(t, name) == "coalesce" then Coalesce(args) else Call(name, distinct, args)
  }

  /** What follows `[`: a list, once comprehensions are ruled out. After `name =` a path pattern is tried; if
      it fails, or no `|` comes of it, the cursor goes back to the list. */
  function ParseList(t: Tables, ts: seq<Token>, d: nat): (r: Parsed<Expr>)
    ensures r.Got? ==> |r.rest| <= |ts|
    decreases |ts|, 15
  {
    if AtSym(ts, RBracket) then Got(ListLit([]), ts[1..])
    else if AtSym(ts, LParen) then Bad(Unmodelled)
    else if AtName(ts) && AtSym(ts[1..], Equals) then
      match ParsePath(t, ts[2..], d)
      case Bad(why) => if why.Mismatch? then ListItems(t, ts, d) else Bad(why)
      case Got(_, rest) => if AtSym(rest, Pipe) || AtWord(rest, "WHERE") then Bad(Unmodelled) else ListItems(t, ts, d)
    else if AtName(ts) && AtWord(ts[1..], "IN") then Bad(Unmodelled)
    else ListItems(t, ts, d)
  }

  function ListItems(t: Tables, ts: seq<Token>, d: nat): (r: Parsed<Expr>)
    ensures r.Got? ==> |r.rest| <= |ts|
    decreases |ts|, 14, 1
  {
    match ParseItems(t, ts, d)
    case Bad(why) => Bad(why)
    case Got(es, rest) => if AtSym(rest, RBracket) then Got(ListLit(es), rest[1..]) else Bad(Mismatch)
  }

  // ---- property maps -------------------------------------------------------------------------

  /** The entries of a map that is not empty. */
  function MapEntries(t: Tables, ts: seq<Token>, d: nat): (r: Parsed<Entries>)
    ensures r.Got? ==> |r.rest| < |ts|
    decreases |ts|, 15
  {
    match MapEntry(t, ts, d)
    case Bad(why) => Bad(why)
    case Got(entry, rest) =>
      if AtSym(rest, Comma) then
        match MapEntries(t, rest[1..], d)
        case Bad(why) => Bad(why)
        case Got(more, rest') => Got([entry] + more, rest')
      else Got([entry], rest)
  }

  function MapEntry(t: Tables, ts: seq<Token>, d: nat): (r: Parsed<(string, Expr)>)
    ensures r.Got? ==> |r.rest| < |ts|
    decreases |ts|, 14
  {
    match UnquotedName(ts)
    case Bad(why) => Bad(why)
    case Got(key, rest) =>
      if AtSym(rest, Colon) then
        match ParseExpr(t, rest[1..], d)
        case Bad(why) => Bad(why)
        case Got(e, rest') => Got((key, e), rest')
      else Bad(Mismatch)
  }

  /** What follows `{`. */
  function MapBody(t: Tables, ts: seq<Token>, d: nat): (r: Parsed<Entries>)
    ensures r.Got? ==> |r.rest| < |ts|
    decreases |ts|, 16
  {
    if AtSym(ts, RBrace) then Got([], ts[1..])
    else
      match MapEntries(t, ts, d)
      case Bad(why) => Bad(why)
      case Got(es, rest) => if AtSym(rest, RBrace) then Got(es, rest[1..]) else Bad(Mismatch)
  }

  /** An optional property map. */
  function Properties(t: Tables, ts: seq<Token>, d: nat): (r: Parsed<Option<Entries>>)
    ensures r.Got? ==> |r.rest| <= |ts|
    decreases |ts|, 13
  {
    if AtSym(ts, LBrace) then
      match MapBody(t, ts[1..], d)
      case Bad(why) => Bad(why)
      case Got(es, rest) => Got(Some(es), rest)
    else Got(None, ts)
  }

  // ---- nodes -------------------------------------------------------------------------------------

  function Variable(ts: seq<Token>): (r: Parsed<Option<string>>)
    ensures r.Got? && |r.rest| <= |ts|
  {
    if AtName(ts) then Got(Some(ts[0].text), ts[1..]) else Got(None, ts)
  }

  /** More labels, each after a colon. */
  function MoreLabels(ts: seq<Token>): (r: Parsed<seq<string>>)
    ensures r.Got? ==> |r.rest| <= |ts|
    decreases |ts|
  {
    if AtSym(ts, Colon) then
      match UnquotedName(ts[1..])
      case Bad(why) => Bad(why)
      case Got(name, rest) =>
        (match MoreLabels(rest)
         case Bad(why) => Bad(why)
         case Got(names, rest') => Got([name] + names, rest'))
    else Got([], ts)
  }

  /** Plain label lists; label expressions and dynamic labels are not modelled. */
  function Labels(ts: seq<Token>): (r: Parsed<seq<string>>)
    ensures r.Got? ==> |r.rest| <= |ts|
  {
    if !AtSym(ts, Colon) then Got([], ts)
    else if AtSym(ts[1..], Bang) || AtSym(ts[1..], LParen) || (|ts| > 1 && ts[1].Param?) then Bad(Unmodelled)
    else
      match UnquotedName(ts[1..])
      case Bad(why) => Bad(why)
      case Got(name, rest) =>
        if AtSym(rest, Amp) || AtSym(rest, Pipe) || AtSym(rest, Percent) then Bad(Unmodelled)
        else
          match MoreLabels(rest)
          case Bad(why) => Bad(why)
          case Got(names, rest') => Got([name] + names, rest')
  }

  function ParseNode(t: Tables, ts: seq<Token>, d: nat): (r: Parsed<NodePattern>)
    ensures r.Got? ==> |r.rest| < |ts|
    decreases |ts|, 10
  {
    match NodeHead(ts)
    case Bad(why) => Bad(why)
    case Got(head, rest) => NodeEnd(t, rest, head, d)
  }

  /** The opening parenthesis, the variable and the labels. */
  function NodeHead(ts: seq<Token>): (r: Parsed<NodePattern>)
    ensures r.Got? ==> |r.rest| < |ts|
  {
    if !AtSym(ts, LParen) then Bad(Mismatch)
    else
      var v := Variable(ts[1..]);
      match Labels(v.rest)
      case Bad(why) => Bad(why)
      case Got(labels, rest) => Got(NodePattern(v.value, labels, None, None), rest)
  }

  /** The property map and the closing parenthesis. */
  function NodeEnd(t: Tables, ts: seq<Token>, head: NodePattern, d: nat): (r: Parsed<NodePattern>)
    ensures r.Got? ==> |r.rest| < |ts|
    decreases |ts|, 14
  {
    match Properties(t, ts, d)
    case Bad(why) => Bad(why)
    case Got(properties, rest) =>
      if AtWord(rest, "WHERE") then Bad(Unmodelled)
      else if AtSym(rest, RParen) then Got(head.(properties := properties), rest[1..])
      else Bad(Mismatch)
  }

  // ---- relationships -----------------------------------------------------------------------------

  /** More types, each after a bar and perhaps a colon. */
  function MoreTypes(ts: seq<Token>): (r: Parsed<seq<string>>)
    ensures r.Got? ==> |r.rest| <= |ts|
    decreases |ts|
  {
    if AtSym(ts, Pipe) then
      match UnquotedName(if AtSym(ts[1..], Colon) then ts[2..] else ts[1..])
      case Bad(why) => Bad(why)
      case Got(name, rest) =>
        (match MoreTypes(rest)
         case Bad(why) => Bad(why)
         case Got(names, rest') => Got([name] + names, rest'))
    else Got([], ts)
  }

  function Types(ts: seq<Token>): (r: Parsed<seq<string>>)
    ensures r.Got? ==> |r.rest| <= |ts|
  {
    if AtSym(ts, Colon) then
      match UnquotedName(ts[1..])
      case Bad(why) => Bad(why)
      case Got(name, rest) =>
        (match MoreTypes(rest)
         case Bad(why) => Bad(why)
         case Got(names, rest') => Got([name] + names, rest'))
    else Got([], ts)
  }

  /** `*`, `*2`, `*2..5`, `*2..`, `*..5`: without a lower bound it is 1. */
  datatype Hops = Hops(min: Option<nat>, max: Option<nat>, variable: bool)

  function IntegerAt(ts: seq<Token>): (r: Parsed<Option<nat>>)
    ensures r.Got? ==> |r.rest| <= |ts| && (r.value.Some? ==> |r.rest| < |ts|)
  {
    if ts != [] && ts[0].IntTok? then
      if Decimal(ts[0].text) then Got(Some(DecimalValue(ts[0].text)), ts[1..]) else Bad(Unmodelled)
    else Got(None, ts)
  }

  function HopBounds(ts: seq<Token>): (r: Parsed<Hops>)
    ensures r.Got? ==> |r.rest| <= |ts|
  {
    if !AtSym(ts, Asterisk) then Got(Hops(None, None, false), ts)
    else if AtName(ts[1..]) then Bad(Unmodelled)
    else
      match IntegerAt(ts[1..])
      case Bad(why) => Bad(why)
      case Got(Some(min), rest) =>
        if AtSym(rest, DotDot) then
          match IntegerAt(rest[1..])
          case Bad(why) => Bad(why)
          case Got(max, rest') => Got(Hops(Some(min), max, true), rest')
        else Got(Hops(Some(min), Some(min), true), rest)
      case Got(None, rest) =>
        if AtSym(rest, DotDot) then
          match IntegerAt(rest[1..])
          case Bad(why) => Bad(why)
          case Got(max, rest') => Got(Hops(Some(1), max, true), rest')
        else Got(Hops(Some(1), None, true), rest)
  }

  /** What follows `[`, up to and including `]`. */
  function Detail(t: Tables, ts: seq<Token>, dir: Direction, d: nat): (r: Parsed<RelPattern>)
    ensures r.Got? ==> |r.rest| < |ts|
    decreases |ts|, 15
  {
    match DetailHead(ts, dir)
    case Bad(why) => Bad(why)
    case Got(head, rest) => DetailEnd(t, rest, head, d)
  }

  /** Variable, types and hop bounds. */
  function DetailHead(ts: seq<Token>, dir: Direction): (r: Parsed<RelPattern>)
    ensures r.Got? ==> |r.rest| <= |ts|
  {
    var v := Variable(ts);
    match Types(v.rest)
    case Bad(why) => Bad(why)
    case Got(types, rest) =>
      match HopBounds(rest)
      case Bad(why) => Bad(why)
      case Got(hops, end) => Got(RelPattern(v.value, types, None, dir, hops.min, hops.max, hops.variable, None), end)
  }

  /** The property map and the closing bracket. */
  function DetailEnd(t: Tables, ts: seq<Token>, head: RelPattern, d: nat): (r: Parsed<RelPattern>)
    ensures r.Got? ==> |r.rest| < |ts|
    decreases |ts|, 14
  {
    match Properties(t, ts, d)
    case Bad(why) => Bad(why)
    case Got(properties, rest) =>
      if AtWord(rest, "WHERE") then Bad(Unmodelled)
      else if AtSym(rest, RBracket) then Got(head.(properties := properties), rest[1..])
      else Bad(Mismatch)
  }

  function Bare(dir: Direction): RelPattern {
    RelPattern(None, [], None, dir, None, None, false, None)
  }

  function ParseRel(t: Tables, ts: seq<Token>, d: nat): (r: Parsed<RelPattern>)
    ensures r.Got? ==> |r.rest| < |ts|
    decreases |ts|, 9
  {
    if AtSym(ts, ArrowLeft) then AfterLeft(t, ts[1..], d)
    else if AtSym(ts, Minus) then AfterMinus(t, ts[1..], d)
    else Bad(Mismatch)
  }

  /** `<-[...]-`, `<-[...]->`, `<--` and `<-->`. */
  function AfterLeft(t: Tables, ts: seq<Token>, d: nat): (r: Parsed<RelPattern>)
    ensures r.Got? ==> |r.rest| <= |ts|
    decreases |ts|, 16
  {
    if AtSym(ts, LBracket) then
      match Detail(t, ts[1..], Incoming, d)
      case Bad(why) => Bad(why)
      case Got(rel, rest) =>
        if AtSym(rest, ArrowRight) then Got(rel.(direction := Both), rest[1..])
        else if AtSym(rest, Minus) then Got(rel, rest[1..])
        else Bad(Mismatch)
    else if AtSym(ts, ArrowRight) then Got(Bare(Both), ts[1..])
    else if AtSym(ts, Minus) then Got(Bare(Incoming), ts[1..])
    else Bad(Mismatch)
  }

  /** `-[...]->`, `-[...]-`, `-->`, `--` and a single `-`. */
  function AfterMinus(t: Tables, ts: seq<Token>, d: nat): (r: Parsed<RelPattern>)
    ensures r.Got? ==> |r.rest| <= |ts|
    decreases |ts|, 16
  {
    if AtSym(ts, LBracket) then
      match Detail(t, ts[1..], Both, d)
      case Bad(why) => Bad(why)
      case Got(rel, rest) =>
        if AtSym(rest, ArrowRight) then Got(rel.(direction := Outgoing), rest[1..])
        else if AtSym(rest, Minus) then Got(rel, rest[1..])
        else Bad(Mismatch)
    else if AtSym(ts, ArrowRight) then Got(Bare(Outgoing), ts[1..])
    else if AtSym(ts, Minus) then Got(Bare(Both), ts[1..])
    else Got(Bare(Both), ts)
  }

  // ---- paths ---------------------------------------------------------------------------------------

  predicate RelAhead(ts: seq<Token>) {
    AtSym(ts, Minus) || AtSym(ts, ArrowLeft) || AtSym(ts, ArrowRight)
  }

  /** Relationship, node, relationship, node, ... as long as a relationship starts. */
  function Steps(t: Tables, ts: seq<Token>, d: nat): (r: Parsed<seq<Element>>)
    ensures r.Got? ==> |r.rest| <= |ts|
    decreases |ts|, 11
  {
    if !RelAhead(ts) then Got([], ts)
    else
      match OneStep(t, ts, d)
      case Bad(why) => Bad(why)
      case Got(pair, rest) =>
        (match Steps(t, rest, d)
         case Bad(why) => Bad(why)
         case Got(more, end) => Got(pair + more, end))
  }

  /** A relationship and the node after it. */
  function OneStep(t: Tables, ts: seq<Token>, d: nat): (r: Parsed<seq<Element>>)
    ensures r.Got? ==> |r.rest| < |ts|
    decreases |ts|, 10
  {
    match ParseRel(t, ts, d)
    case Bad(why) => Bad(why)
    case Got(rel, rest) =>
      (match ParseNode(t, rest, d)
       case Bad(why) => Bad(why)
       case Got(node, end) => Got([RelEl(rel), NodeEl(node)], end))
  }

  function Elements(t: Tables, ts: seq<Token>, d: nat): (r: Parsed<seq<Element>>)
    ensures r.Got? ==> |r.rest| < |ts|
    decreases |ts|, 11
  {
    if AtWord(ts, "SHORTESTPATH") || AtWord(ts, "ALLSHORTESTPATHS") then Bad(Unmodelled)
    else if AtSym(ts, LParen) && AtSym(ts[1..], LParen) then Bad(Unmodelled)
    else
      match ParseNode(t, ts, d)
      case Bad(why) => Bad(why)
      case Got(node, rest) =>
        (match Steps(t, rest, d)
         case Bad(why) => Bad(why)
         case Got(more, end) => Got([NodeEl(node)] + more, end))
  }

  /** `parse_path_pattern`; `d` counts the nesting levels still allowed. */
  function ParsePath(t: Tables, ts: seq<Token>, d: nat): (r: Parsed<Path>)
    ensures r.Got? ==> |r.rest| < |ts|
    decreases |ts|, 12
  {
    if d == 0 then Bad(TooDeep)
    else
      var named := AtName(ts) && AtSym(ts[1..], Equals);
      match Elements(t, if named then ts[2..] else ts, d - 1)
      case Bad(why) => Bad(why)
      case Got(es, rest) => Got(Path(if named then Some(ts[0].text) else None, es), rest)
  }
}
