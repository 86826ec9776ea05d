/** Lexing a printed expression gives its tokens; with the parser, printing and reading back is the identity. */
module ExprText {
  import opened Prelude
  import opened Ast
  import opened Tokens
  import opened Spelling
  import opened Render
  import G = Grammar
  import R = ExprRoundTrip
  import O = ParserOutput

  // ---- the text of an expression, followed by more text --------------------------------------

  function TextOn(t: Tables, e: Expr, k: string): string
    decreases e, 1
  {
    match e
    case NullLit => "null" + k
    case Boolean(b) => (if b then "true" else "false") + k
    case Integer(i) => IntText(i) + k
    case FloatLit(r) => t.realText(r) + k
    case StringLit(s) => StringLiteral(s) + k
    case Parameter(p) => "$" + (p + k)
    case Identifier(x) => Spelling.Identifier(t, x) + k
    case Property(o, key) => TextOn(t, o, "." + (Spelling.Identifier(t, key) + k))
    case ListLit(es) => "[" + ListOn(t, es, "]" + k)
    case Binary(op, l, r) => TextOn(t, l, " " + (OpName(op) + (" " + TextOn(t, r, k))))
    case Not(a) => "NOT" + (" " + TextOn(t, a, k))
    case Neg(a) => "-" + TextOn(t, a, k)
    case IsNull(a, negated) => TextOn(t, a, " " + ("IS" + ((if negated then " NOT" else "") + (" " + ("NULL" + k)))))
    case Subscript(b, i) => TextOn(t, b, "[" + TextOn(t, i, "]" + k))
    case Slice(b, s, n) => TextOn(t, b, "[" + OptOn(t, s, ".." + OptOn(t, n, "]" + k)))
    case Call(f, distinct, es) => f + ("(" + ((if distinct then "DISTINCT " else "") + ListOn(t, es, ")" + k)))
    case Coalesce(es) => "coalesce" + ("(" + ListOn(t, es, ")" + k))
    case StarArg => "*" + k
  }

  function OptOn(t: Tables, o: Option<Expr>, k: string): string
    decreases o, 0
  {
    if o.Some? then TextOn(t, o.value, k) else k
  }

  function ListOn(t: Tables, es: seq<Expr>, k: string): string
    decreases es, 0
  {
    if es == [] then k
    else if |es| == 1 then TextOn(t, es[0], k)
    else TextOn(t, es[0], "," + (" " + ListOn(t, es[1..], k)))
  }

  lemma Four(a: string, b: string, c: string, d: string)
    ensures a + b + c + d == a + (b + (c + d))
  {
  }

  lemma {:induction false} TextOnIs(t: Tables, e: Expr, k: string)
    ensures TextOn(t, e, k) == Text(t, e) + k
    decreases e, 1
  {
    match e
    case Parameter(p) => ConcatAssoc("$", p, k);
    case Property(o, key) =>
      TextOnIs(t, o, "." + (Spelling.Identifier(t, key) + k));
      Four(Text(t, o), ".", Spelling.Identifier(t, key), k);
    case ListLit(es) => ListOnIs(t, es, "]" + k); Four("[", TextList(t, es), "]", k);
    case Binary(op, l, r) => BinaryOnIs(t, op, l, r, k);
    case Not(a) => TextOnIs(t, a, k); assert "NOT" + (" " + (Text(t, a) + k)) == "NOT " + Text(t, a) + k;
    case Neg(a) => TextOnIs(t, a, k); ConcatAssoc("-", Text(t, a), k);
    case IsNull(a, negated) => NullOnIs(t, a, negated, k);
    case Subscript(b, i) => SubscriptOnIs(t, b, i, k);
    case Slice(b, s, n) => SliceOnIs(t, b, s, n, k);
    case Call(f, distinct, es) => CallOnIs(t, f, distinct, es, k);
    case Coalesce(es) => CoalesceOnIs(t, es, k);
    case _ =>
  }

  lemma {:induction false} SubscriptOnIs(t: Tables, b: Expr, i: Expr, k: string)
    ensures TextOn(t, Subscript(b, i), k) == Text(t, Subscript(b, i)) + k
    decreases Subscript(b, i), 0
  {
    TextOnIs(t, i, "]" + k);
    TextOnIs(t, b, "[" + TextOn(t, i, "]" + k));
    Four(Text(t, b), "[", Text(t, i), "]" + k);
    ConcatAssoc(Text(t, b) + "[" + Text(t, i), "]", k);
  }

  lemma {:induction false} CallOnIs(t: Tables, f: string, distinct: bool, es: seq<Expr>, k: string)
    ensures TextOn(t, Call(f, distinct, es), k) == Text(t, Call(f, distinct, es)) + k
    decreases Call(f, distinct, es), 0
  {
    ListOnIs(t, es, ")" + k);
    Four(f, "(", if distinct then "DISTINCT " else "", TextList(t, es) + (")" + k));
    Four(f + "(" + (if distinct then "DISTINCT " else ""), TextList(t, es), ")", k);
  }

  lemma {:induction false} CoalesceOnIs(t: Tables, es: seq<Expr>, k: string)
    ensures TextOn(t, Coalesce(es), k) == Text(t, Coalesce(es)) + k
    decreases Coalesce(es), 0
  {
    ListOnIs(t, es, ")" + k);
    assert "coalesce" + "(" == "coalesce(";
    ConcatAssoc("coalesce", "(", TextList(t, es) + (")" + k));
    Four("coalesce(", TextList(t, es), ")", k);
  }

  lemma {:induction false} BinaryOnIs(t: Tables, op: BinOp, l: Expr, r: Expr, k: string)
    ensures TextOn(t, Binary(op, l, r), k) == Text(t, Binary(op, l, r)) + k
    decreases Binary(op, l, r), 0
  {
    TextOnIs(t, r, k);
    TextOnIs(t, l, " " + (OpName(op) + (" " + TextOn(t, r, k))));
    Four(Text(t, l), " ", OpName(op), " " + (Text(t, r) + k));
    Four(Text(t, l) + " " + OpName(op), " ", Text(t, r), k);
  }

  lemma {:induction false} NullOnIs(t: Tables, a: Expr, negated: bool, k: string)
    ensures TextOn(t, IsNull(a, negated), k) == Text(t, IsNull(a, negated)) + k
    decreases IsNull(a, negated), 0
  {
    var us := " " + ("IS" + ((if negated then " NOT" else "") + (" " + ("NULL" + k))));
    TextOnIs(t, a, us);
    assert us == (if negated then " IS NOT NULL" else " IS NULL") + k;
  }

  lemma {:induction false} SliceOnIs(t: Tables, b: Expr, s: Option<Expr>, n: Option<Expr>, k: string)
    ensures TextOn(t, Slice(b, s, n), k) == Text(t, Slice(b, s, n)) + k
    decreases Slice(b, s, n), 0
  {
    var end := ".." + OptOn(t, n, "]" + k);
    if n.Some? { TextOnIs(t, n.value, "]" + k); }
    if s.Some? { TextOnIs(t, s.value, end); }
    TextOnIs(t, b, "[" + OptOn(t, s, end));
    Four(Text(t, b), "[", TextOpt(t, s), end);
    var head := Text(t, b) + "[" + TextOpt(t, s);
    Four(head, "..", TextOpt(t, n), "]" + k);
    ConcatAssoc(head + ".." + TextOpt(t, n), "]", k);
    assert "" + ("]" + k) == "]" + k;
    assert "" + end == end;
  }

  lemma {:induction false} ListOnIs(t: Tables, es: seq<Expr>, k: string)
    ensures ListOn(t, es, k) == TextList(t, es) + k
    decreases es, 0
  {
    if es == [] {
      assert "" + k == k;
    } else if |es| == 1 {
      TextOnIs(t, es[0], k);
    } else {
      ListOnIs(t, es[1..], k);
      TextOnIs(t, es[0], "," + (" " + ListOn(t, es[1..], k)));
      assert ", " == "," + " ";
      ConcatAssoc(",", " ", TextList(t, es[1..]) + k);
      Four(Text(t, es[0]), ", ", TextList(t, es[1..]), k);
    }
  }

  // ---- single tokens -----------------------------------------------------------------------------

  /** What may follow a word or a number without becoming part of it. */
  ghost predicate Apart(t: Tables, k: string) {
    k == "" || (!WordChar(t, k[0]) && k[0] != '`' && (k[0] == '.' ==> |k| > 1 && !IsDigit(t, k[1])))
  }

  /** A text is read as the given tokens. */
  type Reading = (string, seq<Token>) -> bool

  ghost predicate Faithful(t: Tables, rd: Reading) {
    forall s, ts {:trigger Lex(t, s), rd(s, ts)} :: rd(s, ts) <==> Lex(t, s) == Some(ts)
  }

  lemma ReadsTok(t: Tables, rd: Reading, s: string, token: Token, k: string, ks: seq<Token>)
    requires Faithful(t, rd)
    requires NextToken(t, s) == Tok(token, k) && rd(k, ks)
    ensures rd(s, [token] + ks)
  {
    LexTok(t, s, token, k);
  }

  lemma ReadsSpace(t: Tables, rd: Reading, k: string, ks: seq<Token>)
    requires Faithful(t, rd)
    requires rd(k, ks)
    ensures rd(" " + k, ks)
  {
    assert (" " + k)[1..] == k;
    assert SkipBlanks(" " + k) == SkipBlanks(k);
    assert NextToken(t, " " + k) == NextToken(t, k);
    SameFirst(t, k, " " + k);
  }

  lemma SameFirst(t: Tables, s: string, u: string)
    requires NextToken(t, s) == NextToken(t, u)
    ensures Lex(t, s) == Lex(t, u)
  {
    match NextToken(t, s)
    case Tok(token, rest) => LexTok(t, s, token, rest); LexTok(t, u, token, rest);
    case _ =>
  }

  /** A symbol that the next character does not turn into a longer one. */
  lemma ReadsSym(t: Tables, rd: Reading, c: char, k: string, ks: seq<Token>)
    requires Faithful(t, rd)
    requires c in {'(', ')', '[', ']', '{', '}', ',', '.', ':', '|', '*', '-'} && rd(k, ks)
    requires c == '.' ==> k != "" && k[0] != '.' && !IsDigit(t, k[0])
    requires c == '-' && k != "" ==> k[0] != '>'
    ensures OneCharSymbol(c).Some? && rd([c] + k, [Sym(OneCharSymbol(c).value)] + ks)
  {
    var s := [c] + k;
    assert SkipBlanks(s) == Some(s);
    assert s[1..] == k && (k != "" ==> s[1] == k[0]);
    assert NextToken(t, s) == Tok(Sym(OneCharSymbol(c).value), k);
    ReadsTok(t, rd, s, Sym(OneCharSymbol(c).value), k, ks);
  }

  lemma ReadsDots(t: Tables, rd: Reading, k: string, ks: seq<Token>)
    requires Faithful(t, rd)
    requires rd(k, ks)
    ensures rd(".." + k, [Sym(DotDot)] + ks)
  {
    var s := ".." + k;
    assert SkipBlanks(s) == Some(s);
    assert s[2..] == k && s[1] == '.';
    assert NextToken(t, s) == Tok(Sym(DotDot), k);
    ReadsTok(t, rd, s, Sym(DotDot), k, ks);
  }

  /** `w` spells the symbol `sym` when a space follows. */
  predicate Spells(t: Tables, w: string, sym: Symbol) {
    && 1 <= |w| <= 2 && Ascii(w[0]) && !IsDigit(t, w[0]) && !Blank(w[0]) && w[0] !in {'\'', '"', '$', '`', '.'}
    && if |w| == 1 then OneCharSymbol(w[0]) == Some(sym) && TwoCharSymbol(w[0], ' ') == None
       else TwoCharSymbol(w[0], w[1]) == Some(sym) && w[0] != '/'
  }

  lemma ReadsSpelled(t: Tables, rd: Reading, w: string, sym: Symbol, k: string, ks: seq<Token>)
    requires Faithful(t, rd)
    requires Spells(t, w, sym) && rd(" " + k, ks)
    ensures rd(w + (" " + k), [Sym(sym)] + ks)
  {
    var s := w + (" " + k);
    assert s[0] == w[0] && s[1] == (if |w| == 1 then ' ' else w[1]) && s[|w|..] == " " + k;
    assert SkipBlanks(s) == Some(s);
    assert NextToken(t, s) == SymbolOrWord(t, s);
    ReadsTok(t, rd, s, Sym(sym), " " + k, ks);
  }

  lemma OperatorSpelled(t: Tables, op: BinOp)
    requires OpTokens(op) == [Sym(OpSymbol(op))]
    ensures Spells(t, OpName(op), OpSymbol(op))
  {
  }

  predicate Letters(w: string, lo: char, hi: char) {
    w != "" && forall i :: 0 <= i < |w| ==> lo <= w[i] <= hi
  }

  lemma UpperWord(t: Tables, w: string)
    requires Letters(w, 'A', 'Z')
    ensures Upper(t, w) == w && PlainName(t, w)
  {
    assert AllAscii(w);
    assert Map(UpperChar, w) == w;
  }

  lemma LowerWord(t: Tables, w: string, u: string)
    requires Letters(w, 'a', 'z') && |u| == |w| && forall i :: 0 <= i < |w| ==> u[i] == UpperChar(w[i])
    ensures Upper(t, w) == u && PlainName(t, w)
  {
    assert AllAscii(w);
    assert Map(UpperChar, w) == u;
  }

  lemma KeywordUpper(t: Tables, w: string)
    requires Vocabulary(t) && Letters(w, 'A', 'Z') && w in t.keywords
    ensures Upper(t, w) == w && IsKeyword(t, w) && PlainName(t, w)
  {
    UpperWord(t, w);
  }

  lemma KeywordLower(t: Tables, w: string, u: string)
    requires Vocabulary(t)
    requires (w, u) in {("null", "NULL"), ("true", "TRUE"), ("false", "FALSE"), ("count", "COUNT"),
             ("collect", "COLLECT")}
    ensures Upper(t, w) == u && IsKeyword(t, w) && PlainName(t, w)
  {
    LowerWord(t, w, u);
  }

  lemma CoalesceIsName(t: Tables)
    requires Vocabulary(t)
    ensures !IsKeyword(t, "coalesce") && PlainName(t, "coalesce")
  {
    LowerWord(t, "coalesce", "COALESCE");
  }

  lemma ReadsWord(t: Tables, rd: Reading, w: string, k: string, ks: seq<Token>)
    requires Faithful(t, rd)
    requires PlainName(t, w) && rd(k, ks) && (k == "" || !WordChar(t, k[0]))
    ensures rd(w + k, [if IsKeyword(t, w) then Keyword(Upper(t, w), w) else Ident(w)] + ks)
  {
    WordRoundTrip(t, w, k);
    ReadsTok(t, rd, w + k, if IsKeyword(t, w) then Keyword(Upper(t, w), w) else Ident(w), k, ks);
  }

  /** An upper-case keyword followed by a space. */
  lemma ReadsKw(t: Tables, rd: Reading, w: string, k: string, ks: seq<Token>)
    requires Faithful(t, rd)
    requires Vocabulary(t) && Letters(w, 'A', 'Z') && w in t.keywords
    requires rd(k, ks) && (k == "" || !WordChar(t, k[0]))
    ensures rd(w + k, [Kw(w)] + ks)
  {
    KeywordUpper(t, w);
    ReadsWord(t, rd, w, k, ks);
  }

  /** A property key or label: any name. */
  lemma ReadsKey(t: Tables, rd: Reading, key: string, k: string, ks: seq<Token>)
    requires Faithful(t, rd)
    requires rd(k, ks) && Apart(t, k)
    ensures rd(Spelling.Identifier(t, key) + k, [KeyToken(t, key)] + ks)
  {
    if PlainName(t, key) {
      ReadsWord(t, rd, key, k, ks);
    } else {
      QuotedNameRoundTrip(t, key, k);
      ReadsTok(t, rd, Spelling.Identifier(t, key) + k, Ident(key), k, ks);
    }
  }

  lemma ReadsParameter(t: Tables, rd: Reading, p: string, k: string, ks: seq<Token>)
    requires Faithful(t, rd)
    requires p != "" && (forall i :: 0 <= i < |p| ==> WordChar(t, p[i])) && rd(k, ks) && Apart(t, k)
    ensures rd("$" + (p + k), [Param(p)] + ks)
  {
    var s := "$" + (p + k);
    assert s[1..] == p + k;
    SpanPrefix(IsWord(t), p, k);
    assert s[1..][..|p|] == p && s[1..][|p|..] == k;
    assert SkipBlanks(s) == Some(s);
    assert NextToken(t, s) == Tokens.Parameter(t, s);
    ReadsTok(t, rd, s, Param(p), k, ks);
  }

  lemma ReadsInteger(t: Tables, rd: Reading, n: nat, k: string, ks: seq<Token>)
    requires Faithful(t, rd)
    requires rd(k, ks) && Apart(t, k)
    ensures rd(Digits(n) + k, [IntTok(Digits(n))] + ks)
  {
    var w := Digits(n);
    SpanPrefix(IsDigitFn(t), w, k);
    DigitsScan(t, w, k);
    assert (w + k)[|w|..] == k && (w + k)[..|w|] == w;
    ReadsTok(t, rd, w + k, IntTok(w), k, ks);
  }

  lemma DigitsScan(t: Tables, w: string, k: string)
    requires G.Decimal(w) && Apart(t, k) && Span(IsDigitFn(t), w + k) == |w|
    ensures NextToken(t, w + k) == Tok(IntTok((w + k)[..|w|]), (w + k)[|w|..])
  {
    var s := w + k;
    assert '0' <= s[0] <= '9';
    assert SkipBlanks(s) == Some(s);
    assert |s| > 1 ==> s[1] == if |w| > 1 then w[1] else k[0];
    assert s[|w|..] == k;
    assert k[FractionLen(t, k)..] == k;
    assert AfterExponent(t, k) == Some(k);
  }

  // ---- whole expressions -------------------------------------------------------------------------------

  lemma Closers(t: Tables, k: string)
    ensures Apart(t, " " + k) && Apart(t, "]" + k) && Apart(t, ")" + k) && Apart(t, "," + k) && Apart(t, "[" + k)
    ensures Apart(t, ".." + k) && Apart(t, "(" + k)
  {
    assert (".." + k)[1] == '.';
  }

  lemma DotApart(t: Tables, key: string, k: string)
    ensures var u := Spelling.Identifier(t, key) + k;
            u != "" && u[0] != '.' && !IsDigit(t, u[0]) && Apart(t, "." + u)
  {
    var u := Spelling.Identifier(t, key) + k;
    assert ("." + u)[1] == u[0];
  }

  /** The printed form of an expression is not empty and does not begin with `>`. */
  lemma {:induction false} FirstChar(t: Tables, e: Expr, k: string)
    requires Leaves(t, e)
    ensures TextOn(t, e, k) != "" && TextOn(t, e, k)[0] != '>'
    decreases e
  {
    match e
    case Property(o, key) => FirstChar(t, o, "." + (Spelling.Identifier(t, key) + k));
    case Binary(op, l, r) => FirstChar(t, l, " " + (OpName(op) + (" " + TextOn(t, r, k))));
    case IsNull(a, negated) =>
      FirstChar(t, a, " " + ("IS" + ((if negated then " NOT" else "") + (" " + ("NULL" + k)))));
    case Subscript(b, i) => FirstChar(t, b, "[" + TextOn(t, i, "]" + k));
    case Slice(b, s, n) => FirstChar(t, b, "[" + OptOn(t, s, ".." + OptOn(t, n, "]" + k)));
    case Call(f, _, _) => assert f != "";
    case _ =>
  }

  lemma {:induction false} LexText(t: Tables, rd: Reading, e: Expr, k: string, ks: seq<Token>)
    requires Faithful(t, rd)
    requires Vocabulary(t) && Leaves(t, e) && Apart(t, k) && rd(k, ks)
    ensures rd(TextOn(t, e, k), Toks(t, e, ks))
    decreases e, 1
  {
    match e
    case Property(o, key) => LexProperty(t, rd, o, key, k, ks);
    case ListLit(es) => LexListLit(t, rd, es, k, ks);
    case Binary(op, l, r) => LexBinary(t, rd, op, l, r, k, ks);
    case Not(_) => LexPrefix(t, rd, e, k, ks);
    case Neg(_) => LexPrefix(t, rd, e, k, ks);
    case IsNull(a, negated) => LexNullTest(t, rd, a, negated, k, ks);
    case Subscript(b, i) => LexSubscript(t, rd, b, i, k, ks);
    case Slice(b, s, n) => LexSlice(t, rd, b, s, n, k, ks);
    case Call(f, distinct, es) => LexCall(t, rd, f, distinct, es, k, ks);
    case Coalesce(es) => LexCoalesce(t, rd, es, k, ks);
    case _ => LexAtom(t, rd, e, k, ks);
  }

  lemma {:induction false} LexPrefix(t: Tables, rd: Reading, e: Expr, k: string, ks: seq<Token>)
    requires Faithful(t, rd) && (e.Not? || e.Neg?)
    requires Vocabulary(t) && Leaves(t, e) && Apart(t, k) && rd(k, ks)
    ensures rd(TextOn(t, e, k), Toks(t, e, ks))
    decreases e, 0
  {
    LexText(t, rd, e.arg, k, ks);
    var u, us := TextOn(t, e.arg, k), Toks(t, e.arg, ks);
    if e.Not? {
      ReadsNot(t, rd, u, us);
    } else {
      FirstChar(t, e.arg, k);
      ReadsSym(t, rd, '-', u, us);
    }
  }

  lemma ReadsNot(t: Tables, rd: Reading, u: string, us: seq<Token>)
    requires Faithful(t, rd)
    requires Vocabulary(t) && rd(u, us)
    ensures rd("NOT" + (" " + u), [Kw("NOT")] + us)
  {
    ReadsSpace(t, rd, u, us);
    ReadsKw(t, rd, "NOT", " " + u, us);
  }

  lemma {:induction false} LexListLit(t: Tables, rd: Reading, es: seq<Expr>, k: string, ks: seq<Token>)
    requires Faithful(t, rd)
    requires Vocabulary(t) && LeavesAll(t, es) && Apart(t, k) && rd(k, ks)
    ensures rd("[" + ListOn(t, es, "]" + k), [Sym(LBracket)] + ToksList(t, es, [Sym(RBracket)] + ks))
    decreases es, 2
  {
    Closers(t, k);
    ReadsSym(t, rd, ']', k, ks);
    LexList(t, rd, es, "]" + k, [Sym(RBracket)] + ks);
    ReadsSym(t, rd, '[', ListOn(t, es, "]" + k), ToksList(t, es, [Sym(RBracket)] + ks));
  }

  lemma LexAtom(t: Tables, rd: Reading, e: Expr, k: string, ks: seq<Token>)
    requires Faithful(t, rd)
    requires Vocabulary(t) && Leaves(t, e) && Apart(t, k) && rd(k, ks)
    requires e.NullLit? || e.Boolean? || e.Integer? || e.FloatLit? || e.StringLit? || e.Parameter? || e.Identifier?
             || e.StarArg?
    ensures rd(TextOn(t, e, k), Toks(t, e, ks))
  {
    match e
    case NullLit => KeywordLower(t, "null", "NULL"); ReadsWord(t, rd, "null", k, ks);
    case Boolean(true) => KeywordLower(t, "true", "TRUE"); ReadsWord(t, rd, "true", k, ks);
    case Boolean(false) => KeywordLower(t, "false", "FALSE"); ReadsWord(t, rd, "false", k, ks);
    case Integer(i) => ReadsInteger(t, rd, i, k, ks);
    case StringLit(s) => StringRoundTrip(t, s, k); ReadsTok(t, rd, StringLiteral(s) + k, StringTok(s), k, ks);
    case Parameter(p) => ReadsParameter(t, rd, p, k, ks);
    case Identifier(x) => IdentifierRoundTrip(t, x, k); ReadsTok(t, rd, Spelling.Identifier(t, x) + k, Ident(x), k, ks);
    case _ =>
  }

  lemma {:induction false} LexProperty(t: Tables, rd: Reading, o: Expr, key: string, k: string, ks: seq<Token>)
    requires Faithful(t, rd)
    requires Vocabulary(t) && Leaves(t, o) && Apart(t, k) && rd(k, ks)
    ensures rd(TextOn(t, Property(o, key), k), Toks(t, Property(o, key), ks))
    decreases o, 3
  {
    var u := Spelling.Identifier(t, key) + k;
    ReadsKey(t, rd, key, k, ks);
    DotApart(t, key, k);
    ReadsSym(t, rd, '.', u, [KeyToken(t, key)] + ks);
    LexText(t, rd, o, "." + u, [Sym(Dot)] + ([KeyToken(t, key)] + ks));
  }

  /** STARTS WITH and ENDS WITH, each two keywords. */
  lemma ReadsTwoWords(t: Tables, rd: Reading, op: BinOp, k: string, ks: seq<Token>)
    requires Faithful(t, rd) && (op.StartsOp? || op.EndsOp?)
    requires Vocabulary(t) && rd(" " + k, ks)
    ensures rd(OpName(op) + (" " + k), OpTokens(op) + ks)
  {
    var w := if op.StartsOp? then "STARTS" else "ENDS";
    ReadsKw(t, rd, "WITH", " " + k, ks);
    ReadsSpace(t, rd, "WITH" + (" " + k), [Kw("WITH")] + ks);
    ReadsKw(t, rd, w, " " + ("WITH" + (" " + k)), [Kw("WITH")] + ks);
    assert OpName(op) == w + " " + "WITH";
    Four(w, " ", "WITH", " " + k);
    ConcatAssoc([Kw(w)], [Kw("WITH")], ks);
    assert OpTokens(op) == [Kw(w)] + [Kw("WITH")];
  }

  lemma ReadsOneWord(t: Tables, rd: Reading, op: BinOp, k: string, ks: seq<Token>)
    requires Faithful(t, rd) && !op.StartsOp? && !op.EndsOp?
    requires Vocabulary(t) && rd(" " + k, ks)
    ensures rd(OpName(op) + (" " + k), OpTokens(op) + ks)
  {
    if OpTokens(op) == [Sym(OpSymbol(op))] {
      OperatorSpelled(t, op);
      ReadsSpelled(t, rd, OpName(op), OpSymbol(op), k, ks);
    } else {
      ReadsKw(t, rd, OpName(op), " " + k, ks);
    }
  }

  /** The spelling of a binary operator, after a space and before another. */
  lemma ReadsOperator(t: Tables, rd: Reading, op: BinOp, k: string, ks: seq<Token>)
    requires Faithful(t, rd)
    requires Vocabulary(t) && rd(k, ks)
    ensures rd(" " + (OpName(op) + (" " + k)), OpTokens(op) + ks)
  {
    ReadsSpace(t, rd, k, ks);
    if op.StartsOp? || op.EndsOp? { ReadsTwoWords(t, rd, op, k, ks); } else { ReadsOneWord(t, rd, op, k, ks); }
    ReadsSpace(t, rd, OpName(op) + (" " + k), OpTokens(op) + ks);
  }

  lemma BinaryShape(t: Tables, op: BinOp, l: Expr, r: Expr, k: string, ks: seq<Token>)
    ensures TextOn(t, Binary(op, l, r), k) == TextOn(t, l, " " + (OpName(op) + (" " + TextOn(t, r, k))))
    ensures Toks(t, Binary(op, l, r), ks) == Toks(t, l, OpTokens(op) + Toks(t, r, ks))
  {
  }

  lemma {:induction false} LexBinary(t: Tables, rd: Reading, op: BinOp, l: Expr, r: Expr, k: string, ks: seq<Token>)
    requires Faithful(t, rd)
    requires Vocabulary(t) && Leaves(t, l) && Leaves(t, r) && Apart(t, k) && rd(k, ks)
    ensures rd(TextOn(t, Binary(op, l, r), k), Toks(t, Binary(op, l, r), ks))
    decreases Binary(op, l, r), 0
  {
    BinaryShape(t, op, l, r, k, ks);
    LexText(t, rd, r, k, ks);
    LexLeft(t, rd, op, l, TextOn(t, r, k), Toks(t, r, ks));
  }

  lemma {:induction false} LexLeft(t: Tables, rd: Reading, op: BinOp, l: Expr, u: string, us: seq<Token>)
    requires Faithful(t, rd)
    requires Vocabulary(t) && Leaves(t, l) && rd(u, us)
    ensures rd(TextOn(t, l, " " + (OpName(op) + (" " + u))), Toks(t, l, OpTokens(op) + us))
    decreases l, 3
  {
    ReadsOperator(t, rd, op, u, us);
    Closers(t, OpName(op) + (" " + u));
    LexText(t, rd, l, " " + (OpName(op) + (" " + u)), OpTokens(op) + us);
  }

  /** ` IS NULL` and ` IS NOT NULL`. */
  lemma ReadsNullTest(t: Tables, rd: Reading, negated: bool, k: string, ks: seq<Token>)
    requires Faithful(t, rd)
    requires Vocabulary(t) && Apart(t, k) && rd(k, ks)
    ensures rd(" " + ("IS" + ((if negated then " NOT" else "") + (" " + ("NULL" + k)))),
                  [Kw("IS")] + ((if negated then [Kw("NOT")] else []) + ([Kw("NULL")] + ks)))
  {
    var u, us := " " + ("NULL" + k), [Kw("NULL")] + ks;
    ReadsKw(t, rd, "NULL", k, ks);
    ReadsSpace(t, rd, "NULL" + k, us);
    ReadsNegation(t, rd, negated, u, us);
    var v, vs := (if negated then " NOT" else "") + u, (if negated then [Kw("NOT")] else []) + us;
    ReadsKw(t, rd, "IS", v, vs);
    ReadsSpace(t, rd, "IS" + v, [Kw("IS")] + vs);
  }

  lemma ReadsNegation(t: Tables, rd: Reading, negated: bool, u: string, us: seq<Token>)
    requires Faithful(t, rd)
    requires Vocabulary(t) && u != "" && u[0] == ' ' && rd(u, us)
    ensures var v := (if negated then " NOT" else "") + u;
            v[0] == ' ' && rd(v, (if negated then [Kw("NOT")] else []) + us)
  {
    if negated {
      ReadsKw(t, rd, "NOT", u, us);
      ReadsSpace(t, rd, "NOT" + u, [Kw("NOT")] + us);
      assert " NOT" + u == " " + ("NOT" + u);
    } else {
      assert "" + u == u && [] + us == us;
    }
  }

  lemma {:induction false} LexNullTest(t: Tables, rd: Reading, a: Expr, negated: bool, k: string, ks: seq<Token>)
    requires Faithful(t, rd)
    requires Vocabulary(t) && Leaves(t, a) && Apart(t, k) && rd(k, ks)
    ensures rd(TextOn(t, IsNull(a, negated), k), Toks(t, IsNull(a, negated), ks))
    decreases a, 3
  {
    var u := "IS" + ((if negated then " NOT" else "") + (" " + ("NULL" + k)));
    ReadsNullTest(t, rd, negated, k, ks);
    Closers(t, u);
    LexText(t, rd, a, " " + u, [Kw("IS")] + ((if negated then [Kw("NOT")] else []) + ([Kw("NULL")] + ks)));
  }

  lemma {:induction false} LexIndex(t: Tables, rd: Reading, i: Expr, k: string, ks: seq<Token>)
    requires Faithful(t, rd)
    requires Vocabulary(t) && Leaves(t, i) && Apart(t, k) && rd(k, ks)
    ensures rd("[" + TextOn(t, i, "]" + k), [Sym(LBracket)] + Toks(t, i, [Sym(RBracket)] + ks))
    decreases i, 3
  {
    Closers(t, k);
    ReadsSym(t, rd, ']', k, ks);
    LexText(t, rd, i, "]" + k, [Sym(RBracket)] + ks);
    ReadsSym(t, rd, '[', TextOn(t, i, "]" + k), Toks(t, i, [Sym(RBracket)] + ks));
  }

  lemma {:induction false} LexSubscript(t: Tables, rd: Reading, b: Expr, i: Expr, k: string, ks: seq<Token>)
    requires Faithful(t, rd)
    requires Vocabulary(t) && Leaves(t, b) && Leaves(t, i) && Apart(t, k) && rd(k, ks)
    ensures rd(TextOn(t, Subscript(b, i), k), Toks(t, Subscript(b, i), ks))
    decreases Subscript(b, i), 0
  {
    LexIndex(t, rd, i, k, ks);
    Closers(t, TextOn(t, i, "]" + k));
    LexText(t, rd, b, "[" + TextOn(t, i, "]" + k), [Sym(LBracket)] + Toks(t, i, [Sym(RBracket)] + ks));
  }

  lemma {:induction false} LexOpt(t: Tables, rd: Reading, o: Option<Expr>, k: string, ks: seq<Token>)
    requires Faithful(t, rd)
    requires Vocabulary(t) && (o.Some? ==> Leaves(t, o.value)) && Apart(t, k) && rd(k, ks)
    ensures rd(OptOn(t, o, k), ToksOpt(t, o, ks))
    decreases o, 0
  {
    if o.Some? { LexText(t, rd, o.value, k, ks); }
  }

  lemma {:induction false} LexSlice(t: Tables, rd: Reading, b: Expr, s: Option<Expr>, n: Option<Expr>, k: string,
          ks: seq<Token>)
    requires Faithful(t, rd)
    requires Vocabulary(t) && Leaves(t, Slice(b, s, n)) && Apart(t, k) && rd(k, ks)
    ensures rd(TextOn(t, Slice(b, s, n), k), Toks(t, Slice(b, s, n), ks))
    decreases Slice(b, s, n), 0
  {
    Closers(t, k);
    ReadsSym(t, rd, ']', k, ks);
    LexOpt(t, rd, n, "]" + k, [Sym(RBracket)] + ks);
    var u, us := OptOn(t, n, "]" + k), ToksOpt(t, n, [Sym(RBracket)] + ks);
    Closers(t, u);
    ReadsDots(t, rd, u, us);
    LexOpt(t, rd, s, ".." + u, [Sym(DotDot)] + us);
    var v, vs := OptOn(t, s, ".." + u), ToksOpt(t, s, [Sym(DotDot)] + us);
    Closers(t, v);
    ReadsSym(t, rd, '[', v, vs);
    LexText(t, rd, b, "[" + v, [Sym(LBracket)] + vs);
  }

  lemma {:induction false} LexList(t: Tables, rd: Reading, es: seq<Expr>, k: string, ks: seq<Token>)
    requires Faithful(t, rd)
    requires Vocabulary(t) && LeavesAll(t, es) && Apart(t, k) && rd(k, ks)
    ensures rd(ListOn(t, es, k), ToksList(t, es, ks))
    decreases es, 0
  {
    if |es| == 1 {
      LexText(t, rd, es[0], k, ks);
    } else if es != [] {
      var u, us := ListOn(t, es[1..], k), ToksList(t, es[1..], ks);
      LexList(t, rd, es[1..], k, ks);
      ReadsSpace(t, rd, u, us);
      ReadsSym(t, rd, ',', " " + u, us);
      Closers(t, " " + u);
      LexText(t, rd, es[0], "," + (" " + u), [Sym(Comma)] + us);
    }
  }

  lemma {:induction false} LexItems(t: Tables, rd: Reading, f: string, distinct: bool, es: seq<Expr>, k: string,
          ks: seq<Token>)
    requires Faithful(t, rd)
    requires Vocabulary(t) && (CountAll(f, distinct, es) || LeavesAll(t, es)) && Apart(t, k) && rd(k, ks)
    ensures rd(ListOn(t, es, ")" + k), ToksList(t, es, [Sym(RParen)] + ks))
    decreases es, 1
  {
    Closers(t, k);
    ReadsSym(t, rd, ')', k, ks);
    if CountAll(f, distinct, es) {
      assert |es| == 1 && es[0] == StarArg;
      ReadsSym(t, rd, '*', ")" + k, [Sym(RParen)] + ks);
    } else {
      LexList(t, rd, es, ")" + k, [Sym(RParen)] + ks);
    }
  }

  lemma ReadsDistinct(t: Tables, rd: Reading, distinct: bool, u: string, us: seq<Token>)
    requires Faithful(t, rd)
    requires Vocabulary(t) && rd(u, us)
    ensures rd((if distinct then "DISTINCT " else "") + u, (if distinct then [Kw("DISTINCT")] else []) + us)
  {
    if distinct {
      ReadsSpace(t, rd, u, us);
      ReadsKw(t, rd, "DISTINCT", " " + u, us);
      assert "DISTINCT " + u == "DISTINCT" + (" " + u);
    } else {
      assert "" + u == u && [] + us == us;
    }
  }

  /** The arguments of a call with their parentheses. */
  lemma {:induction false} LexArgs(t: Tables, rd: Reading, f: string, distinct: bool, es: seq<Expr>, k: string,
          ks: seq<Token>)
    requires Faithful(t, rd)
    requires Vocabulary(t) && (CountAll(f, distinct, es) || LeavesAll(t, es)) && Apart(t, k) && rd(k, ks)
    ensures rd("(" + ((if distinct then "DISTINCT " else "") + ListOn(t, es, ")" + k)),
                  [Sym(LParen)] + ((if distinct then [Kw("DISTINCT")] else []) + ToksList(t, es, [Sym(RParen)] + ks)))
    decreases es, 2
  {
    var u, us := ListOn(t, es, ")" + k), ToksList(t, es, [Sym(RParen)] + ks);
    LexItems(t, rd, f, distinct, es, k, ks);
    ReadsDistinct(t, rd, distinct, u, us);
    ReadsSym(t, rd, '(', (if distinct then "DISTINCT " else "") + u, (if distinct then [Kw("DISTINCT")] else []) + us);
  }

  lemma {:induction false} LexCall(t: Tables, rd: Reading, f: string, distinct: bool, es: seq<Expr>, k: string,
          ks: seq<Token>)
    requires Faithful(t, rd)
    requires Vocabulary(t) && Leaves(t, Call(f, distinct, es)) && Apart(t, k) && rd(k, ks)
    ensures rd(TextOn(t, Call(f, distinct, es), k), Toks(t, Call(f, distinct, es), ks))
    decreases es, 3
  {
    var u := "(" + ((if distinct then "DISTINCT " else "") + ListOn(t, es, ")" + k));
    var us := [Sym(LParen)] + ((if distinct then [Kw("DISTINCT")] else []) + ToksList(t, es, [Sym(RParen)] + ks));
    LexArgs(t, rd, f, distinct, es, k, ks);
    ReadsFunctionName(t, rd, f, u, us);
  }

  lemma ReadsFunctionName(t: Tables, rd: Reading, f: string, u: string, us: seq<Token>)
    requires Faithful(t, rd)
    requires Vocabulary(t) && FunctionName(t, f) && rd(u, us) && u != "" && u[0] == '('
    ensures rd(f + u, [CallToken(f)] + us)
  {
    if f == "count" { KeywordLower(t, "count", "COUNT"); }
    if f == "collect" { KeywordLower(t, "collect", "COLLECT"); }
    ReadsWord(t, rd, f, u, us);
  }

  lemma {:induction false} LexCoalesce(t: Tables, rd: Reading, es: seq<Expr>, k: string, ks: seq<Token>)
    requires Faithful(t, rd)
    requires Vocabulary(t) && LeavesAll(t, es) && Apart(t, k) && rd(k, ks)
    ensures rd(TextOn(t, Coalesce(es), k), Toks(t, Coalesce(es), ks))
    decreases es, 3
  {
    var u, us := "(" + ListOn(t, es, ")" + k), [Sym(LParen)] + ToksList(t, es, [Sym(RParen)] + ks);
    LexArgs(t, rd, "coalesce", false, es, k, ks);
    assert "" + ListOn(t, es, ")" + k) == ListOn(t, es, ")" + k);
    assert [] + ToksList(t, es, [Sym(RParen)] + ks) == ToksList(t, es, [Sym(RParen)] + ks);
    CoalesceIsName(t);
    ReadsWord(t, rd, "coalesce", u, us);
  }

  // ---- printing and reading back -----------------------------------------------------------------------

  /** The text of `e`, followed by `k`, is read as the tokens of `e` followed by those of `k`. */
  lemma PrintedTokens(t: Tables, e: Expr, k: string, ks: seq<Token>)
    requires Vocabulary(t) && Leaves(t, e) && Apart(t, k) && Lex(t, k) == Some(ks)
    ensures Lex(t, Text(t, e) + k) == Some(Toks(t, e, ks))
  {
    var rd: Reading := (s, ts) => Lex(t, s) == Some(ts);
    LexText(t, rd, e, k, ks);
    TextOnIs(t, e, k);
    assert rd(TextOn(t, e, k), Toks(t, e, ks));
  }

  /** Printing then lexing and parsing gives back the same tree and stops at the follow token, exactly for the
      trees that need no parentheses. */
  lemma PrintThenParse(t: Tables, e: Expr, k: string, d: nat)
    requires Vocabulary(t) && Leaves(t, e) && Nest(e) < d
    requires Apart(t, k) && Lex(t, k).Some? && R.Stops(0, Lex(t, k).value)
    ensures Lex(t, Text(t, e) + k).Some?
    ensures G.ParseExpr(t, Lex(t, Text(t, e) + k).value, d) == G.Got(e, Lex(t, k).value) <==> Levels(0, e)
  {
    PrintedTokens(t, e, k, Lex(t, k).value);
    O.RoundTripExactly(t, e, Lex(t, k).value, d);
  }
}
