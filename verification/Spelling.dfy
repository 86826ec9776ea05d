/** How the renderer spells names and strings, and that the lexer reads them back. */
module Spelling {
  import opened Prelude
  import opened Tokens

  // ---- the renderer ------------------------------------------------------------------------

  /** `s.replace(c, with)`. */
  function Replace(s: string, c: char, with_: string): string {
    if s == "" then "" else (if s[0] == c then with_ else [s[0]]) + Replace(s[1..], c, with_)
  }

  function EscapeText(s: string): string {
    Replace(Replace(Replace(Replace(s, '\\', "\\\\"), '\'', "\\'"), '\n', "\\n"), '\t', "\\t")
  }

  function StringLiteral(s: string): string {
    "'" + EscapeText(s) + "'"
  }

  predicate PlainName(t: Tables, name: string) {
    name != "" && WordStart(t, name[0]) && forall i :: 1 <= i < |name| ==> WordChar(t, name[i])
  }

  /** A name is printed as it is when it looks like a word, and in backticks otherwise. */
  function Identifier(t: Tables, name: string): string {
    if PlainName(t, name) then name else "`" + Replace(name, '`', "``") + "`"
  }

  // ---- strings ---------------------------------------------------------------------------------

  lemma {:induction false} ReplaceConcat(a: string, b: string, c: char, with_: string)
    ensures Replace(a + b, c, with_) == Replace(a, c, with_) + Replace(b, c, with_)
  {
    if a == "" {
      assert a + b == b;
    } else {
      assert (a + b)[1..] == a[1..] + b;
      ReplaceConcat(a[1..], b, c, with_);
    }
  }

  function EscapeChar(c: char): string {
    if c == '\\' then "\\\\" else if c == '\'' then "\\'"
    else if c == '\n' then "\\n" else if c == '\t' then "\\t"
    else [c]
  }

  lemma ReplaceOne(x: char, c: char, with_: string)
    ensures Replace([x], c, with_) == if x == c then with_ else [x]
  {
    assert Replace([x][1..], c, with_) == "";
  }

  lemma ReplaceTwo(x: char, y: char, c: char, with_: string)
    requires x != c && y != c
    ensures Replace([x, y], c, with_) == [x, y]
  {
    assert [x, y][1..] == [y];
    ReplaceOne(y, c, with_);
  }

  /** The four replacements do not disturb one another. */
  lemma EscapeOne(c: char)
    ensures EscapeText([c]) == EscapeChar(c)
  {
    ReplaceOne(c, '\\', "\\\\");
    if c == '\\' {
      ReplaceTwo('\\', '\\', '\'', "\\'");
      ReplaceTwo('\\', '\\', '\n', "\\n");
      ReplaceTwo('\\', '\\', '\t', "\\t");
    } else {
      ReplaceOne(c, '\'', "\\'");
      if c == '\'' {
        ReplaceTwo('\\', '\'', '\n', "\\n");
        ReplaceTwo('\\', '\'', '\t', "\\t");
      } else {
        ReplaceOne(c, '\n', "\\n");
        if c == '\n' {
          ReplaceTwo('\\', 'n', '\t', "\\t");
        } else {
          ReplaceOne(c, '\t', "\\t");
        }
      }
    }
  }

  lemma EscapeCons(c: char, s: string)
    ensures EscapeText([c] + s) == EscapeChar(c) + EscapeText(s)
  {
    ReplaceConcat([c], s, '\\', "\\\\");
    var a, b := Replace([c], '\\', "\\\\"), Replace(s, '\\', "\\\\");
    ReplaceConcat(a, b, '\'', "\\'");
    var a', b' := Replace(a, '\'', "\\'"), Replace(b, '\'', "\\'");
    ReplaceConcat(a', b', '\n', "\\n");
    ReplaceConcat(Replace(a', '\n', "\\n"), Replace(b', '\n', "\\n"), '\t', "\\t");
    EscapeOne(c);
  }

  /** One character of a literal: its escape is read back as the character. */
  lemma BodyStep(c: char, s: string)
    ensures StringBody(EscapeChar(c) + s, '\'') ==
            match StringBody(s, '\'')
            case None => None
            case Some((text, rest)) => Some(([c] + text, rest))
  {
    var u := EscapeChar(c) + s;
    if c == '\\' || c == '\'' || c == '\n' || c == '\t' {
      assert u[2..] == s;
    } else {
      assert u[1..] == s;
    }
  }

  lemma {:induction false} StringReadsBack(s: string, k: string)
    ensures StringBody(EscapeText(s) + ("'" + k), '\'') == Some((s, k))
  {
    if s == "" {
      assert EscapeText("") == "";
      assert "" + ("'" + k) == "'" + k;
      assert ("'" + k)[1..] == k;
    } else {
      assert s == [s[0]] + s[1..];
      EscapeCons(s[0], s[1..]);
      StringReadsBack(s[1..], k);
      BodyStep(s[0], EscapeText(s[1..]) + ("'" + k));
      ConcatAssoc(EscapeChar(s[0]), EscapeText(s[1..]), "'" + k);
    }
  }

  /** Every string literal is read back as the string, and the lexer stops right after it. */
  lemma StringRoundTrip(t: Tables, s: string, k: string)
    ensures NextToken(t, StringLiteral(s) + k) == Tok(StringTok(s), k)
  {
    var u := StringLiteral(s) + k;
    StringReadsBack(s, k);
    assert u[1..] == EscapeText(s) + ("'" + k);
  }

  // ---- names -------------------------------------------------------------------------------------

  lemma {:induction false} SpanPrefix(p: char -> bool, s: string, k: string)
    requires forall i :: 0 <= i < |s| ==> p(s[i])
    ensures Span(p, s + k) == |s| + Span(p, k)
  {
    if s == "" {
      assert s + k == k;
    } else {
      assert (s + k)[1..] == s[1..] + k;
      SpanPrefix(p, s[1..], k);
    }
  }

  /** The character after a token does not continue it. */
  predicate Ends(p: char -> bool, k: string) {
    k == "" || !p(k[0])
  }

  lemma NoBlankSkipped(t: Tables, s: string)
    requires s != "" && WordStart(t, s[0])
    ensures SkipBlanks(s) == Some(s)
  {
  }

  lemma NoSymbolSeen(t: Tables, s: string)
    requires s != "" && WordStart(t, s[0])
    ensures SymbolOrWord(t, s) == Word(t, s)
  {
  }

  lemma WordStarts(t: Tables, s: string)
    requires s != "" && WordStart(t, s[0])
    ensures NextToken(t, s) == Word(t, s)
  {
    NoBlankSkipped(t, s);
    NoSymbolSeen(t, s);
    assert Scan(t, s) == SymbolOrWord(t, s);
  }

  /** A word is read as a keyword or a name, exactly when nothing continues it. */
  lemma WordRoundTrip(t: Tables, name: string, k: string)
    requires PlainName(t, name)
    ensures Ends(IsWord(t), k) ==>
              NextToken(t, name + k) ==
              Tok(if IsKeyword(t, name) then Keyword(Upper(t, name), name) else Ident(name), k)
    ensures !Ends(IsWord(t), k) ==> NextToken(t, name + k).Tok? && |NextToken(t, name + k).rest| < |k|
  {
    var s := name + k;
    WordStarts(t, s);
    SpanPrefix(IsWord(t), name, k);
    if Ends(IsWord(t), k) {
      assert s[..|name|] == name && s[|name|..] == k;
    }
  }

  predicate IsTick(c: char) { c == '`' }

  lemma TickStep(c: char, s: string)
    requires s != ""
    ensures BacktickBody((if c == '`' then "``" else [c]) + s) ==
            match BacktickBody(s)
            case None => None
            case Some((text, rest)) => Some(([c] + text, rest))
  {
    if c == '`' {
      assert ("``" + s)[2..] == s;
    } else {
      assert ([c] + s)[1..] == s;
    }
  }

  lemma {:induction false} TicksReadBack(name: string, k: string)
    ensures var r := BacktickBody(Replace(name, '`', "``") + ("`" + k));
            if Ends(IsTick, k) then r == Some((name, k)) else r.Some? ==> |r.value.1| < |k|
  {
    if name == "" {
      assert Replace("", '`', "``") + ("`" + k) == "`" + k;
      assert ("`" + k)[1..] == k;
      if k != "" && k[0] == '`' { assert ("`" + k)[2..] == k[1..]; }
    } else {
      var rest := Replace(name[1..], '`', "``") + ("`" + k);
      TicksReadBack(name[1..], k);
      TickStep(name[0], rest);
      ConcatAssoc(if name[0] == '`' then "``" else [name[0]], Replace(name[1..], '`', "``"), "`" + k);
      assert name == [name[0]] + name[1..];
    }
  }

  lemma QuotedNameRoundTrip(t: Tables, name: string, k: string)
    requires !PlainName(t, name)
    ensures NextToken(t, Identifier(t, name) + k) == Tok(Ident(name), k) <==> Ends(IsTick, k)
  {
    var u := Identifier(t, name) + k;
    TicksReadBack(name, k);
    assert u[1..] == Replace(name, '`', "``") + ("`" + k);
    assert SkipBlanks(u) == Some(u);
    assert NextToken(t, u) == Backticked(u);
  }

  /** A rendered name is read back as a name exactly when it is not a keyword printed plain and the next
      character does not continue it. */
  lemma IdentifierRoundTrip(t: Tables, name: string, k: string)
    ensures NextToken(t, Identifier(t, name) + k) == Tok(Ident(name), k) <==>
            if PlainName(t, name) then !IsKeyword(t, name) && Ends(IsWord(t), k) else Ends(IsTick, k)
  {
    if PlainName(t, name) {
      WordRoundTrip(t, name, k);
    } else {
      QuotedNameRoundTrip(t, name, k);
    }
  }
}
