/** The lexer's character loops, proved to scan what `Tokens` says, with line and column kept exact. */
module Lexer {
  import opened Prelude
  import T = Tokens

  /** Line and column as counted from 1, and the offset. */
  datatype Position = Position(line: nat, col: nat, offset: nat)

  /** The line and the column of offset `i`: a newline ends its line. */
  function LineAt(s: string, i: nat): nat
    requires i <= |s|
  {
    if i == 0 then 1 else LineAt(s, i - 1) + (if s[i - 1] == '\n' then 1 else 0)
  }

  function ColAt(s: string, i: nat): nat
    requires i <= |s|
  {
    if i == 0 || s[i - 1] == '\n' then 1 else ColAt(s, i - 1) + 1
  }

  datatype Read = Read(token: T.Token, pos: Position) | AtEnd(end: Position) | Failed

  /** `r` is what the step `s` yields at `pos`, and `rest` is what it leaves. */
  ghost predicate Scanned(r: Read, pos: Position, s: T.Step, rest: string) {
    match s
    case Tok(token, left) => r == Read(token, pos) && rest == left
    case EndOfText => r == AtEnd(pos)
    case Illegal => r.Failed?
  }

  class Lexer {
    const source: string
    const tables: T.Tables
    var i: nat
    var line: nat
    var col: nat

    ghost predicate Valid()
      reads this
    {
      i <= |source| && line == LineAt(source, i) && col == ColAt(source, i)
    }

    /** The text not read yet. */
    function Rest(): string
      requires i <= |source|
      reads this
    {
      source[i..]
    }

    constructor (source: string, tables: T.Tables)
      ensures Valid() && i == 0 && this.source == source && this.tables == tables
    {
      this.source, this.tables := source, tables;
      i, line, col := 0, 1, 1;
    }

    function Eof(): bool
      reads this
    {
      i >= |source|
    }

    function Here(): Position
      reads this
    {
      Position(line, col, i)
    }

    function Peek(n: nat): (c: char)
      requires i + n < |source|
      reads this
      ensures c == Rest()[n]
    {
      source[i + n]
    }

    method Advance() returns (ch: char)
      requires Valid() && !Eof()
      modifies this
      ensures Valid() && i == old(i) + 1 && ch == old(Rest())[0] && Rest() == old(Rest())[1..]
    {
      ch := source[i];
      i := i + 1;
      if ch == '\n' {
        line, col := line + 1, 1;
      } else {
        col := col + 1;
      }
    }

    /** `while not eof and p(peek): advance`. */
    method AdvanceWhile(p: char -> bool)
      requires Valid()
      modifies this
      ensures Valid() && i == old(i) + T.Span(p, old(Rest()))
      ensures Rest() == old(Rest())[T.Span(p, old(Rest()))..]
    {
      ghost var start := i;
      while i < |source| && p(source[i])
        invariant Valid() && start <= i
        invariant i + T.Span(p, source[i..]) == start + T.Span(p, source[start..])
      {
        assert source[i..][1..] == source[i + 1..];
        var _ := Advance();
      }
    }

    // ---- scanners --------------------------------------------------------------------------------

    method ScanString(pos: Position) returns (r: Read)
      requires Valid() && !Eof()
      modifies this
      ensures Valid() && Scanned(r, pos, T.Quoted(old(Rest())), Rest())
    {
      ghost var body := Rest()[1..];
      var quote := Advance();
      var buf := "";
      assert Rest() == body;
      PrefixedStart(T.StringBody(body, quote));
      while i < |source|
        invariant Valid()
        invariant Prefixed(buf, T.StringBody(Rest(), quote)) == T.StringBody(body, quote)
        decreases |source| - i
      {
        ghost var now := Rest();
        assert |now| > 1 ==> now[1] == source[i + 1] && now[2..] == source[i + 2..];
        assert now[1..] == source[i + 1..];
        var ch := Advance();
        if ch == '\\' && i < |source| {
          var esc := Advance();
          PrefixedStep(buf, T.Escape(esc), T.StringBody(Rest(), quote));
          buf := buf + [T.Escape(esc)];
          continue;
        }
        if ch == quote {
          assert buf + "" == buf;
          return Read(T.StringTok(buf), pos);
        }
        PrefixedStep(buf, ch, T.StringBody(Rest(), quote));
        buf := buf + [ch];
      }
      return Failed;
    }

    method ScanBacktick(pos: Position) returns (r: Read)
      requires Valid() && !Eof()
      modifies this
      ensures Valid() && Scanned(r, pos, T.Backticked(old(Rest())), Rest())
    {
      ghost var body := Rest()[1..];
      var _ := Advance();
      var buf := "";
      assert Rest() == body;
      PrefixedStart(T.BacktickBody(body));
      while i < |source|
        invariant Valid()
        invariant Prefixed(buf, T.BacktickBody(Rest())) == T.BacktickBody(body)
        decreases |source| - i
      {
        ghost var now := Rest();
        assert |now| > 1 ==> now[1] == source[i + 1] && now[2..] == source[i + 2..];
        assert now[1..] == source[i + 1..];
        var ch := Advance();
        if ch == '`' {
          if i < |source| && source[i] == '`' {
            var _ := Advance();
            PrefixedStep(buf, '`', T.BacktickBody(Rest()));
            buf := buf + ['`'];
            continue;
          }
          assert buf + "" == buf;
          return Read(T.Ident(buf), pos);
        }
        PrefixedStep(buf, ch, T.BacktickBody(Rest()));
        buf := buf + [ch];
      }
      return Failed;
    }

    method ScanWord(pos: Position) returns (r: Read)
      requires Valid() && !Eof()
      modifies this
      ensures Valid() && Scanned(r, pos, T.Word(tables, old(Rest())), Rest())
    {
      ghost var s := Rest();
      var start := i;
      AdvanceWhile(T.IsWord(tables));
      var text := source[start..i];
      assert text == s[..i - start] && Rest() == s[i - start..];
      var upper := T.Upper(tables, text);
      return Read(if upper in tables.keywords then T.Keyword(upper, text) else T.Ident(text), pos);
    }

    method ScanParameter(pos: Position) returns (r: Read)
      requires Valid() && !Eof()
      modifies this
      ensures Valid() && Scanned(r, pos, T.Parameter(tables, old(Rest())), Rest())
    {
      var _ := Advance();
      if Eof() || !T.WordChar(tables, Peek(0)) {
        return Failed;
      }
      var start := i;
      AdvanceWhile(T.IsWord(tables));
      SliceOf(source, start, i);
      return Read(T.Param(source[start..i]), pos);
    }

    method ScanNumber(pos: Position) returns (r: Read)
      requires Valid() && !Eof()
      modifies this
      ensures Valid() && Scanned(r, pos, T.Number(tables, old(Rest())), Rest())
    {
      if i + 1 < |source| && Peek(0) == '0' && (Peek(1) == 'x' || Peek(1) == 'X') {
        r := ScanBased(pos, T.HexDigit);
        return;
      }
      if i + 1 < |source| && Peek(0) == '0' && (Peek(1) == 'o' || Peek(1) == 'O') {
        r := ScanBased(pos, T.OctalDigit);
        return;
      }
      r := ScanDecimal(pos);
    }

    method ScanDecimal(pos: Position) returns (r: Read)
      requires Valid() && !Eof()
      modifies this
      ensures Valid() && Scanned(r, pos, T.Decimal(tables, old(Rest())), Rest())
    {
      var start := i;
      AdvanceWhile(T.IsDigitFn(tables));
      r := ScanAfterDigits(pos, start);
    }

    method ScanAfterDigits(pos: Position, start: nat) returns (r: Read)
      requires Valid() && start <= i
      modifies this
      ensures Valid() && Scanned(r, pos, T.AfterDigits(tables, source[start..], old(Rest())), Rest())
    {
      ghost var u := Rest();
      var digits := i;
      ScanFraction();
      ghost var v := Rest();
      var ok := ScanExponent();
      if !ok {
        return Failed;
      }
      r := Read(if i == digits then T.IntTok(source[start..i]) else T.FloatTok(source[start..i]), pos);
      NumberRead(tables, source, start, i, u, v);
    }

    method ScanFraction()
      requires Valid()
      modifies this
      ensures Valid() && old(i) <= i && Rest() == old(Rest())[T.FractionLen(tables, old(Rest()))..]
    {
      if i + 1 < |source| && Peek(0) == '.' && T.IsDigit(tables, Peek(1)) {
        var _ := Advance();
        AdvanceWhile(T.IsDigitFn(tables));
      }
    }

    /** Fails when an exponent has no digits. */
    method ScanExponent() returns (ok: bool)
      requires Valid()
      modifies this
      ensures Valid() && old(i) <= i && (ok <==> T.AfterExponent(tables, old(Rest())).Some?)
      ensures ok ==> Rest() == T.AfterExponent(tables, old(Rest())).value
    {
      if Eof() || (Peek(0) != 'e' && Peek(0) != 'E') {
        return true;
      }
      var _ := Advance();
      SkipSign();
      if Eof() || !T.IsDigit(tables, Peek(0)) {
        return false;
      }
      AdvanceWhile(T.IsDigitFn(tables));
      return true;
    }

    method SkipSign()
      requires Valid()
      modifies this
      ensures Valid() && old(i) <= i && Rest() == T.AfterSign(old(Rest()))
    {
      if !Eof() && (Peek(0) == '+' || Peek(0) == '-') {
        var _ := Advance();
      }
    }

    method ScanBased(pos: Position, p: char -> bool) returns (r: Read)
      requires Valid() && i + 2 <= |source|
      modifies this
      ensures Valid() && Scanned(r, pos, T.BasedNumber(tables, old(Rest()), p), Rest())
    {
      var start := i;
      var _ := Advance();
      var _ := Advance();
      AdvanceWhile(p);
      BasedRead(tables, source, start, i, p);
      if i == start + 2 || (!Eof() && T.WordChar(tables, source[i])) {
        return Failed;
      }
      return Read(T.IntTok(source[start..i]), pos);
    }

    // ---- blanks, tokens, whole texts ---------------------------------------------------------------

    method SkipBlanks() returns (ok: bool)
      requires Valid()
      modifies this
      ensures Valid() && old(i) <= i && (ok <==> T.SkipBlanks(old(Rest())).Some?)
      ensures ok ==> Some(Rest()) == T.SkipBlanks(old(Rest()))
    {
      while !Eof()
        invariant Valid() && old(i) <= i && T.SkipBlanks(Rest()) == T.SkipBlanks(old(Rest()))
        decreases |source| - i
      {
        var ch := Peek(0);
        if T.Blank(ch) {
          var _ := Advance();
        } else if ch == '/' && i + 1 < |source| && Peek(1) == '/' {
          SkipLineComment();
        } else if ch == '/' && i + 1 < |source| && Peek(1) == '*' {
          ok := SkipBlockComment();
          if !ok {
            return;
          }
        } else {
          return true;
        }
      }
      return true;
    }

    method SkipTwo()
      requires Valid() && i + 1 < |source|
      modifies this
      ensures Valid() && i == old(i) + 2 && Rest() == old(Rest())[2..]
    {
      var _ := Advance();
      var _ := Advance();
    }

    method SkipLineComment()
      requires Valid() && i + 1 < |source|
      modifies this
      ensures Valid() && old(i) < i
      ensures var s := old(Rest()); Rest() == s[2..][T.Span(T.NotNewline(), s[2..])..]
    {
      SkipTwo();
      AdvanceWhile(T.NotNewline());
    }

    method SkipBlockComment() returns (closed: bool)
      requires Valid() && i + 1 < |source|
      modifies this
      ensures Valid() && old(i) < i && (closed <==> T.CommentEnd(old(Rest())[2..]).Some?)
      ensures closed ==> Some(Rest()) == T.CommentEnd(old(Rest())[2..])
    {
      SkipTwo();
      while !Eof()
        invariant Valid() && old(i) < i && T.CommentEnd(Rest()) == T.CommentEnd(old(Rest())[2..])
        decreases |source| - i
      {
        if Peek(0) == '*' && i + 1 < |source| && Peek(1) == '/' {
          SkipTwo();
          return true;
        }
        var _ := Advance();
      }
      return false;
    }

    /** The next token with the position it starts at, the end of the text, or an error. */
    method NextToken() returns (r: Read)
      requires Valid()
      modifies this
      ensures Valid() && Scanned(r, StartOf(source, old(Rest())), T.NextToken(tables, old(Rest())), Rest())
    {
      var ok := SkipBlanks();
      if !ok {
        return Failed;
      }
      assert Here() == At(source, |source| - |Rest()|);
      if Eof() {
        return AtEnd(Here());
      }
      r := ScanToken(Here());
    }

    method ScanToken(pos: Position) returns (r: Read)
      requires Valid() && !Eof()
      modifies this
      ensures Valid() && Scanned(r, pos, T.Scan(tables, old(Rest())), Rest())
    {
      var ch := Peek(0);
      if ch == '\'' || ch == '"' {
        r := ScanString(pos);
      } else if T.IsDigit(tables, ch) || (ch == '.' && i + 1 < |source| && T.IsDigit(tables, Peek(1))) {
        r := ScanNumber(pos);
      } else if ch == '$' {
        r := ScanParameter(pos);
      } else if ch == '`' {
        r := ScanBacktick(pos);
      } else {
        r := ScanSymbolOrWord(pos);
      }
    }

    method ScanSymbolOrWord(pos: Position) returns (r: Read)
      requires Valid() && !Eof()
      modifies this
      ensures Valid() && Scanned(r, pos, T.SymbolOrWord(tables, old(Rest())), Rest())
    {
      var ch := Peek(0);
      if i + 1 < |source| {
        var two := T.TwoCharSymbol(ch, Peek(1));
        if two.Some? {
          SkipTwo();
          return Read(T.Sym(two.value), pos);
        }
      }
      var one := T.OneCharSymbol(ch);
      if one.Some? {
        var _ := Advance();
        return Read(T.Sym(one.value), pos);
      }
      if T.WordStart(tables, ch) {
        r := ScanWord(pos);
      } else {
        r := Failed;
      }
    }

    /** All tokens of the text, or nothing if the lexer stops with an error. */
    method Tokenize() returns (r: Option<seq<T.Token>>)
      requires Valid() && i == 0
      modifies this
      ensures Valid() && r == T.Lex(tables, source)
    {
      var tokens: seq<T.Token> := [];
      assert source[0..] == source;
      LexedStart(T.Lex(tables, source));
      while true
        invariant Valid() && Lexed(tokens, T.Lex(tables, Rest())) == T.Lex(tables, source)
        decreases |source| - i
      {
        ghost var before := Rest();
        var next := NextToken();
        if next.Failed? {
          return None;
        }
        if next.AtEnd? {
          assert tokens + [] == tokens;
          return Some(tokens);
        }
        T.NextShrinks(tables, before);
        T.LexTok(tables, before, next.token, Rest());
        LexedCons(tokens, next.token, T.Lex(tables, Rest()));
        tokens := tokens + [next.token];
      }
    }
  }

  function At(source: string, i: nat): Position
    requires i <= |source|
  {
    Position(LineAt(source, i), ColAt(source, i), i)
  }

  /** Where the next token starts when `rest` is left to read. */
  ghost function StartOf(source: string, rest: string): Position {
    match T.SkipBlanks(rest)
    case Some(s) => if |s| <= |source| then At(source, |source| - |s|) else At(source, 0)
    case None => At(source, 0)
  }

  /** Tokens already read, followed by those still to come. */
  ghost function Lexed(tokens: seq<T.Token>, r: Option<seq<T.Token>>): Option<seq<T.Token>> {
    match r
    case None => None
    case Some(more) => Some(tokens + more)
  }

  lemma LexedStart(r: Option<seq<T.Token>>)
    ensures Lexed([], r) == r
  {
    if r.Some? { assert [] + r.value == r.value; }
  }

  lemma LexedCons(tokens: seq<T.Token>, token: T.Token, r: Option<seq<T.Token>>)
    ensures Lexed(tokens + [token], r) == Lexed(tokens, T.Cons(token, r))
  {
    if r.Some? { ConcatAssoc(tokens, [token], r.value); }
  }

  lemma BasedRead(t: T.Tables, source: string, start: nat, i: nat, p: char -> bool)
    requires start + 2 <= |source| && i == start + 2 + T.Span(p, source[start + 2..])
    ensures T.BasedNumber(t, source[start..], p) ==
            if i == start + 2 || (i < |source| && T.WordChar(t, source[i])) then T.Illegal
            else T.Tok(T.IntTok(source[start..i]), source[i..])
  {
    assert source[start..][2..] == source[start + 2..];
    SliceOf(source, start, i);
  }

  /** A number from `start` to `i` whose digits leave `u` and whose fraction leaves `v`. */
  lemma NumberRead(t: T.Tables, source: string, start: nat, i: nat, u: string, v: string)
    requires start <= i <= |source| && v == u[T.FractionLen(t, u)..]
    requires T.AfterExponent(t, v) == Some(source[i..])
    ensures T.AfterDigits(t, source[start..], u) ==
            T.Tok(if |source| - i == |u| then T.IntTok(source[start..i]) else T.FloatTok(source[start..i]), source[i..])
  {
    SliceOf(source, start, i);
  }

  lemma SliceOf(s: string, a: nat, b: nat)
    requires a <= b <= |s|
    ensures s[a..b] == s[a..][..b - a] && s[b..] == s[a..][b - a..]
  {
  }

  /** A scan whose first characters are already in the buffer. */
  ghost function Prefixed(buf: string, r: Option<(string, string)>): Option<(string, string)> {
    match r
    case None => None
    case Some((text, rest)) => Some((buf + text, rest))
  }

  lemma PrefixedStart(r: Option<(string, string)>)
    ensures Prefixed("", r) == r
  {
    if r.Some? { assert "" + r.value.0 == r.value.0; }
  }

  lemma PrefixedStep(buf: string, c: char, r: Option<(string, string)>)
    ensures Prefixed(buf + [c], r) == Prefixed(buf, Prefixed([c], r))
  {
    if r.Some? { ConcatAssoc(buf, [c], r.value.0); }
  }
}
