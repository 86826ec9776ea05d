/** Tokens and the text they are read from: what the scanners of the lexer accept. */
module Tokens {
  import opened Prelude

  // ---- characters --------------------------------------------------------------------------

  /** The lexer's keyword table; Python's tables for characters above ASCII, its case mapping for words that
      contain one, and its text for a float. */
  datatype Tables = Tables(
    keywords: set<string>,
    alpha: char -> bool,
    digit: char -> bool,
    other: char -> bool,
    upper: string -> string,
    lower: string -> string,
    realText: real -> string)

  predicate Ascii(c: char) { c < 128 as char }

  /** `str.isalpha`, `str.isdigit` and `str.isalnum`; no letter is a digit. */
  predicate IsAlpha(t: Tables, c: char) {
    if Ascii(c) then 'a' <= c <= 'z' || 'A' <= c <= 'Z' else t.alpha(c)
  }

  predicate IsDigit(t: Tables, c: char) {
    if Ascii(c) then '0' <= c <= '9' else t.digit(c) && !t.alpha(c)
  }

  predicate WordChar(t: Tables, c: char) {
    c == '_' || IsAlpha(t, c) || IsDigit(t, c) || (!Ascii(c) && t.other(c))
  }

  predicate WordStart(t: Tables, c: char) {
    c == '_' || IsAlpha(t, c)
  }

  predicate AllAscii(s: string) {
    forall i :: 0 <= i < |s| ==> Ascii(s[i])
  }

  function UpperChar(c: char): char {
    if 'a' <= c <= 'z' then (c as int - 32) as char else c
  }

  function LowerChar(c: char): char {
    if 'A' <= c <= 'Z' then (c as int + 32) as char else c
  }

  function Upper(t: Tables, s: string): string {
    if AllAscii(s) then Map(UpperChar, s) else t.upper(s)
  }

  function Lower(t: Tables, s: string): string {
    if AllAscii(s) then Map(LowerChar, s) else t.lower(s)
  }

  // ---- tokens --------------------------------------------------------------------------------

  datatype Symbol =
    | LParen | RParen | LBracket | RBracket | LBrace | RBrace | Comma | Dot | Colon | Semicolon | Pipe
    | Equals | NotEqual | Less | LessEq | Greater | GreaterEq | Regex
    | Plus | Minus | Asterisk | Slash | Percent | Caret
    | Amp | Bang | ArrowLeft | ArrowRight | DotDot

  /** A keyword keeps the spelling it had in the source. */
  datatype Token =
    | Ident(text: string)
    | Keyword(word: string, raw: string)
    | StringTok(text: string)
    | IntTok(text: string)
    | FloatTok(text: string)
    | Param(name: string)
    | Sym(symbol: Symbol)

  /** Two-character symbols are tried before one-character ones; `!=` is another spelling of `<>`. */
  function TwoCharSymbol(a: char, b: char): Option<Symbol> {
    if a == '<' && b == '>' then Some(NotEqual)
    else if a == '<' && b == '=' then Some(LessEq)
    else if a == '>' && b == '=' then Some(GreaterEq)
    else if a == '=' && b == '~' then Some(Regex)
    else if a == '<' && b == '-' then Some(ArrowLeft)
    else if a == '-' && b == '>' then Some(ArrowRight)
    else if a == '.' && b == '.' then Some(DotDot)
    else if a == '!' && b == '=' then Some(NotEqual)
    else None
  }

  function OneCharSymbol(c: char): Option<Symbol> {
    match c
    case '!' => Some(Bang) case '(' => Some(LParen) case ')' => Some(RParen) case '[' => Some(LBracket)
    case ']' => Some(RBracket) case '{' => Some(LBrace) case '}' => Some(RBrace) case ',' => Some(Comma)
    case '.' => Some(Dot) case ':' => Some(Colon) case ';' => Some(Semicolon) case '|' => Some(Pipe)
    case '=' => Some(Equals) case '<' => Some(Less) case '>' => Some(Greater) case '+' => Some(Plus)
    case '-' => Some(Minus) case '*' => Some(Asterisk) case '/' => Some(Slash) case '%' => Some(Percent)
    case '^' => Some(Caret) case '&' => Some(Amp)
    case _ => None
  }

  // ---- scanners --------------------------------------------------------------------------------

  /** A scanned token and the text after it; the two ways to stop instead. */
  datatype Step = Tok(token: Token, rest: string) | EndOfText | Illegal

  function Escape(c: char): char {
    if c == 'n' then '\n' else if c == 't' then '\t' else if c == 'r' then '\r'
    else if c == 'b' then 8 as char else if c == 'f' then 12 as char else c
  }

  /** The contents of a string literal up to its closing quote, and what follows; nothing if it never closes. */
  function StringBody(s: string, quote: char): (r: Option<(string, string)>)
    ensures r.Some? ==> |r.value.1| < |s|
  {
    if s == "" then None
    else if s[0] == '\\' && |s| > 1 then
      match StringBody(s[2..], quote)
      case None => None
      case Some((text, rest)) => Some(([Escape(s[1])] + text, rest))
    else if s[0] == quote then Some(("", s[1..]))
    else
      match StringBody(s[1..], quote)
      case None => None
      case Some((text, rest)) => Some(([s[0]] + text, rest))
  }

  function BacktickBody(s: string): (r: Option<(string, string)>)
    ensures r.Some? ==> |r.value.1| < |s|
  {
    if s == "" then None
    else if s[0] == '`' then
      if |s| > 1 && s[1] == '`' then
        match BacktickBody(s[2..])
        case None => None
        case Some((text, rest)) => Some(("`" + text, rest))
      else Some(("", s[1..]))
    else
      match BacktickBody(s[1..])
      case None => None
      case Some((text, rest)) => Some(([s[0]] + text, rest))
  }

  /** The length of the longest prefix of characters that satisfy `p`. */
  function Span(p: char -> bool, s: string): (n: nat)
    ensures n <= |s|
    ensures forall i :: 0 <= i < n ==> p(s[i])
    ensures n < |s| ==> !p(s[n])
  {
    if s == "" || !p(s[0]) then 0 else 1 + Span(p, s[1..])
  }

  function IsWord(t: Tables): char -> bool { c => WordChar(t, c) }

  function IsDigitFn(t: Tables): char -> bool { c => IsDigit(t, c) }

  predicate HexDigit(c: char) { '0' <= c <= '9' || 'a' <= c <= 'f' || 'A' <= c <= 'F' }

  predicate OctalDigit(c: char) { '0' <= c <= '7' }

  /** `0x` and `0o` literals: at least one digit, and no word character after them. */
  function BasedNumber(t: Tables, s: string, p: char -> bool): Step
    requires |s| >= 2
  {
    var n := 2 + Span(p, s[2..]);
    if n == 2 || (n < |s| && WordChar(t, s[n])) then Illegal else Tok(IntTok(s[..n]), s[n..])
  }

  /** The length of a fraction at the start of `s`: a point and at least one digit. */
  function FractionLen(t: Tables, s: string): (n: nat)
    ensures n <= |s|
  {
    if |s| > 1 && s[0] == '.' && IsDigit(t, s[1]) then 1 + Span(IsDigitFn(t), s[1..]) else 0
  }

  function AfterSign(s: string): (r: string)
    ensures |r| <= |s|
  {
    if s != "" && (s[0] == '+' || s[0] == '-') then s[1..] else s
  }

  /** What follows an exponent at the start of `s`, if there is one; nothing when it has no digits. */
  function AfterExponent(t: Tables, s: string): (r: Option<string>)
    ensures r.Some? ==> |r.value| <= |s|
  {
    if s == "" || (s[0] != 'e' && s[0] != 'E') then Some(s)
    else
      var digits := AfterSign(s[1..]);
      var n := Span(IsDigitFn(t), digits);
      if n == 0 then None else Some(digits[n..])
  }

  function Number(t: Tables, s: string): Step
    requires s != ""
  {
    if |s| >= 2 && s[0] == '0' && (s[1] == 'x' || s[1] == 'X') then BasedNumber(t, s, HexDigit)
    else if |s| >= 2 && s[0] == '0' && (s[1] == 'o' || s[1] == 'O') then BasedNumber(t, s, OctalDigit)
    else Decimal(t, s)
  }

  /** Digits, then possibly a fraction and an exponent. */
  function Decimal(t: Tables, s: string): Step {
    AfterDigits(t, s, s[Span(IsDigitFn(t), s)..])
  }

  /** The rest of a decimal number `s` whose digits are followed by `u`. */
  function AfterDigits(t: Tables, s: string, u: string): Step {
    AfterFraction(t, s, u, u[FractionLen(t, u)..])
  }

  function AfterFraction(t: Tables, s: string, u: string, v: string): Step {
    match AfterExponent(t, v)
    case None => Illegal
    case Some(w) => if |w| > |s| then Illegal else Whole(s, |w| == |u|, w)
  }

  /** The number that `s` spells before its last part `w`. */
  function Whole(s: string, integer: bool, w: string): Step
    requires |w| <= |s|
  {
    var text := s[..|s| - |w|];
    Tok(if integer then IntTok(text) else FloatTok(text), w)
  }

  function Parameter(t: Tables, s: string): Step
    requires s != ""
  {
    var n := Span(IsWord(t), s[1..]);
    if n == 0 then Illegal else Tok(Param(s[1..][..n]), s[1..][n..])
  }

  predicate IsKeyword(t: Tables, word: string) {
    Upper(t, word) in t.keywords
  }

  /** What the renderer relies on: these words are reserved, and `coalesce` is not. */
  predicate Vocabulary(t: Tables) {
    && {"OR", "XOR", "AND", "NOT", "IN", "IS", "NULL", "CONTAINS", "STARTS", "ENDS", "WITH", "DISTINCT"} <= t.keywords
    && {"TRUE", "FALSE", "COUNT", "COLLECT"} <= t.keywords
    && "COALESCE" !in t.keywords
  }

  function Word(t: Tables, s: string): Step {
    var n := Span(IsWord(t), s);
    Tok(if IsKeyword(t, s[..n]) then Keyword(Upper(t, s[..n]), s[..n]) else Ident(s[..n]), s[n..])
  }

  function Quoted(s: string): Step
    requires s != ""
  {
    match StringBody(s[1..], s[0])
    case None => Illegal
    case Some((text, rest)) => Tok(StringTok(text), rest)
  }

  function Backticked(s: string): Step
    requires s != ""
  {
    match BacktickBody(s[1..])
    case None => Illegal
    case Some((text, rest)) => Tok(Ident(text), rest)
  }

  // ---- blanks and comments -------------------------------------------------------------------------

  predicate Blank(c: char) { c == ' ' || c == '\t' || c == '\r' || c == '\n' }

  function NotNewline(): char -> bool { (c: char) => c != '\n' }

  /** The text after the `*` and `/` that close a block comment. */
  function CommentEnd(s: string): (r: Option<string>)
    ensures r.Some? ==> |r.value| < |s|
  {
    if |s| < 2 then None
    else if s[0] == '*' && s[1] == '/' then Some(s[2..])
    else CommentEnd(s[1..])
  }

  /** The text with leading blanks and comments removed; nothing if a comment never closes. */
  function SkipBlanks(s: string): (r: Option<string>)
    ensures r.Some? ==> |r.value| <= |s|
    decreases |s|
  {
    if s == "" then Some(s)
    else if Blank(s[0]) then SkipBlanks(s[1..])
    else if |s| >= 2 && s[0] == '/' && s[1] == '/' then SkipBlanks(s[2..][Span(NotNewline(), s[2..])..])
    else if |s| >= 2 && s[0] == '/' && s[1] == '*' then
      match CommentEnd(s[2..])
      case None => None
      case Some(rest) => SkipBlanks(rest)
    else Some(s)
  }

  // ---- the next token ----------------------------------------------------------------------------------

  /** Which scanner a character selects; the order of the tests is the lexer's. */
  function Scan(t: Tables, s: string): Step
    requires s != ""
  {
    var c := s[0];
    if c == '\'' || c == '"' then Quoted(s)
    else if IsDigit(t, c) || (c == '.' && |s| > 1 && IsDigit(t, s[1])) then Number(t, s)
    else if c == '$' then Parameter(t, s)
    else if c == '`' then Backticked(s)
    else SymbolOrWord(t, s)
  }

  function SymbolOrWord(t: Tables, s: string): Step
    requires s != ""
  {
    if |s| > 1 && TwoCharSymbol(s[0], s[1]).Some? then Tok(Sym(TwoCharSymbol(s[0], s[1]).value), s[2..])
    else if OneCharSymbol(s[0]).Some? then Tok(Sym(OneCharSymbol(s[0]).value), s[1..])
    else if WordStart(t, s[0]) then Word(t, s)
    else Illegal
  }

  function NextToken(t: Tables, s: string): Step {
    match SkipBlanks(s)
    case None => Illegal
    case Some(u) => if u == "" then EndOfText else Scan(t, u)
  }

  lemma ScanShrinks(t: Tables, s: string)
    requires s != ""
    ensures Scan(t, s).Tok? ==> |Scan(t, s).rest| < |s|
  {
    if WordStart(t, s[0]) { assert IsWord(t)(s[0]); }
    if IsDigit(t, s[0]) { assert IsDigitFn(t)(s[0]); }
  }

  lemma NextShrinks(t: Tables, s: string)
    ensures NextToken(t, s).Tok? ==> |NextToken(t, s).rest| < |s|
  {
    if SkipBlanks(s).Some? && SkipBlanks(s).value != "" { ScanShrinks(t, SkipBlanks(s).value); }
  }

  function Cons(token: Token, r: Option<seq<Token>>): Option<seq<Token>> {
    match r
    case None => None
    case Some(more) => Some([token] + more)
  }

  /** All tokens of a text, without the end marker; nothing if the lexer stops with an error. */
  function Lex(t: Tables, s: string): Option<seq<Token>>
    decreases |s|
  {
    NextShrinks(t, s);
    match NextToken(t, s)
    case Illegal => None
    case EndOfText => Some([])
    case Tok(token, rest) => Cons(token, Lex(t, rest))
  }

  lemma LexTok(t: Tables, s: string, token: Token, rest: string)
    requires NextToken(t, s) == Tok(token, rest)
    ensures Lex(t, s) == Cons(token, Lex(t, rest))
  {
  }
}
