/** The recursive-descent parser of expressions and path patterns: a cursor and a nesting counter, moved by loops. */
module Parser {
  import opened Prelude
  import opened Ast
  import opened Tokens
  import G = Grammar

  datatype Answer<+T> = Done(value: T) | Raised(reason: G.Reason)

  /** The method answered what the grammar says and left `rest` to read. */
  ghost predicate Did<T>(r: Answer<T>, p: G.Parsed<T>, rest: seq<Token>) {
    match p
    case Got(value, left) => r == Done(value) && rest == left
    case Bad(why) => r == Raised(why)
  }

  class Parser {
    const tokens: seq<Token>
    const tables: Tables
    const maxDepth: nat
    var i: nat
    var depth: nat

    ghost predicate Valid()
      reads this
    {
      i <= |tokens| && depth <= maxDepth
    }

    ghost function Rest(): seq<Token>
      requires i <= |tokens|
      reads this
    {
      tokens[i..]
    }

    constructor (tokens: seq<Token>, tables: Tables, maxDepth: nat)
      ensures Valid() && i == 0 && depth == 0
      ensures this.tokens == tokens && this.tables == tables && this.maxDepth == maxDepth
    {
      this.tokens, this.tables, this.maxDepth := tokens, tables, maxDepth;
      i, depth := 0, 0;
    }

    // ---- token helpers -----------------------------------------------------------------------

    function Looking(n: nat): (ts: seq<Token>)
      requires i <= |tokens|
      reads this
      ensures n <= |Rest()| ==> ts == Rest()[n..]
      ensures n > |Rest()| ==> ts == []
    {
      if i + n <= |tokens| then tokens[i + n..] else []
    }

    method Step()
      requires Valid() && i < |tokens|
      modifies this`i
      ensures Valid() && Rest() == old(Rest())[1..] && i == old(i) + 1
    {
      i := i + 1;
    }

    method MatchSym(symbol: Symbol) returns (ok: bool)
      requires Valid()
      modifies this`i
      ensures Valid() && (ok <==> G.AtSym(old(Rest()), symbol))
      ensures if ok then i == old(i) + 1 && Rest() == old(Rest())[1..] else i == old(i)
    {
      ok := i < |tokens| && tokens[i] == Sym(symbol);
      if ok {
        i := i + 1;
      }
    }

    method MatchWord(word: string) returns (ok: bool)
      requires Valid()
      modifies this`i
      ensures Valid() && (ok <==> G.AtWord(old(Rest()), word))
      ensures if ok then i == old(i) + 1 && Rest() == old(Rest())[1..] else i == old(i)
    {
      ok := i < |tokens| && tokens[i].Keyword? && tokens[i].word == word;
      if ok {
        i := i + 1;
      }
    }

    method Name() returns (r: Answer<string>)
      requires Valid()
      modifies this`i
      ensures Valid() && Did(r, G.UnquotedName(old(Rest())), Rest())
    {
      var p := G.UnquotedName(Looking(0));
      if p.Bad? {
        return Raised(p.reason);
      }
      i := i + 1;
      return Done(p.value);
    }

    // ---- the ladder ----------------------------------------------------------------------------

    method ParseExpression() returns (r: Answer<Expr>)
      requires Valid()
      modifies this
      ensures Valid() && depth == old(depth) && Did(r, G.ParseExpr(tables, old(Rest()), maxDepth - old(depth)), Rest())
      decreases |tokens| - i, 12
    {
      if depth == maxDepth {
        return Raised(G.TooDeep);
      }
      depth := depth + 1;
      r := ParseLeft(0);
      depth := depth - 1;
    }

    method ParseAt(k: nat) returns (r: Answer<Expr>)
      requires Valid() && k <= 9
      modifies this
      ensures Valid() && depth == old(depth) && Did(r, G.ParseAt(tables, k, old(Rest()), maxDepth - old(depth)), Rest())
      decreases |tokens| - i, 11 - k, 1
    {
      if k == 3 {
        r := ParseNot();
      } else if k == 7 {
        r := ParsePow();
      } else if k == 8 {
        r := ParseUnary();
      } else if k == 9 {
        r := ParsePostfix();
      } else {
        r := ParseLeft(k);
      }
    }

    /** `parse_or`, `parse_xor`, `parse_and`, `parse_comparison`, `parse_add` and `parse_mul`: one operand of
        the next level, then operators of this level as long as they come. */
    method ParseLeft(k: nat) returns (r: Answer<Expr>)
      requires Valid() && G.LeftLevel(k)
      modifies this
      ensures Valid() && depth == old(depth)
              && Did(r, G.ParseLeft(tables, k, old(Rest()), maxDepth - old(depth)), Rest())
      decreases |tokens| - i, 11 - k, 0
    {
      ghost var d, goal := maxDepth - depth, G.ParseLeft(tables, k, Rest(), maxDepth - depth);
      r := ParseAt(k + 1);
      if r.Raised? {
        return;
      }
      var left := r.value;
      while true
        invariant Valid() && depth == old(depth) && old(i) < i
        invariant G.Operators(tables, k, left, Rest(), d) == goal
        decreases |tokens| - i
      {
        var more := ParseOperator(k, left);
        if more.Raised? {
          return Raised(more.reason);
        }
        if more.value.None? {
          return Done(left);
        }
        left := more.value.value;
      }
    }

    /** One turn of that loop. */
    method ParseOperator(k: nat, left: Expr) returns (r: Answer<Option<Expr>>)
      requires Valid() && G.LeftLevel(k)
      modifies this
      ensures Valid() && depth == old(depth)
      ensures Did(r, G.OperatorStep(tables, k, left, old(Rest()), maxDepth - old(depth)), Rest())
      decreases |tokens| - i, 13
    {
      var seen := G.OpAt(k, Looking(0));
      if seen.BadOp? {
        return Raised(G.Mismatch);
      }
      if seen.Op? {
        i := i + seen.size;
        assert Rest() == old(Rest())[seen.size..];
        var right := ParseAt(k + 1);
        return if right.Raised? then Raised(right.reason) else Done(Some(Binary(seen.op, left, right.value)));
      }
      if k == 4 && G.AtWord(Looking(0), "IS") {
        var negated := ParseNullTest();
        return if negated.Raised? then Raised(negated.reason) else Done(Some(IsNull(left, negated.value)));
      }
      return Done(None);
    }

    method ParseNullTest() returns (r: Answer<bool>)
      requires Valid() && G.AtWord(Rest(), "IS")
      modifies this`i
      ensures Valid() && Did(r, G.NullTest(old(Rest())), Rest())
    {
      Step();
      var negated := MatchWord("NOT");
      var ok := MatchWord("NULL");
      return if ok then Done(negated) else Raised(G.Mismatch);
    }

    method ParseNot() returns (r: Answer<Expr>)
      requires Valid()
      modifies this
      ensures Valid() && depth == old(depth) && Did(r, G.ParseNot(tables, old(Rest()), maxDepth - old(depth)), Rest())
      decreases |tokens| - i, 8, 0
    {
      var negated := MatchWord("NOT");
      if negated {
        r := ParseNot();
        r := if r.Done? then Done(Not(r.value)) else r;
      } else {
        r := ParseLeft(4);
      }
    }

    method ParsePow() returns (r: Answer<Expr>)
      requires Valid()
      modifies this
      ensures Valid() && depth == old(depth) && Did(r, G.ParsePow(tables, old(Rest()), maxDepth - old(depth)), Rest())
      decreases |tokens| - i, 4, 0
    {
      r := ParseUnary();
      if r.Raised? {
        return;
      }
      var raised := MatchSym(Caret);
      if raised {
        var right := ParsePow();
        r := if right.Done? then Done(Binary(PowOp, r.value, right.value)) else right;
      }
    }

    method ParseUnary() returns (r: Answer<Expr>)
      requires Valid()
      modifies this
      ensures Valid() && depth == old(depth) && Did(r, G.ParseSign(tables, old(Rest()), maxDepth - old(depth)), Rest())
      decreases |tokens| - i, 3, 0
    {
      var plus := MatchSym(Plus);
      if plus {
        r := ParseUnary();
        return;
      }
      var minus := MatchSym(Minus);
      if minus {
        r := ParseUnary();
        r := if r.Done? then Done(Neg(r.value)) else r;
      } else {
        r := ParsePostfix();
      }
    }

    method ParsePostfix() returns (r: Answer<Expr>)
      requires Valid()
      modifies this
      ensures Valid() && depth == old(depth)
              && Did(r, G.ParsePostfix(tables, old(Rest()), maxDepth - old(depth)), Rest())
      decreases |tokens| - i, 2, 0
    {
      ghost var d, goal := maxDepth - depth, G.ParsePostfix(tables, Rest(), maxDepth - depth);
      r := ParsePrimary();
      if r.Raised? {
        return;
      }
      var node := r.value;
      while true
        invariant Valid() && depth == old(depth) && old(i) < i
        invariant G.Postfix(tables, node, Rest(), d) == goal
        decreases |tokens| - i
      {
        var more := ParsePostfixStep(node);
        if more.Raised? {
          return Raised(more.reason);
        }
        if more.value.None? {
          return Done(node);
        }
        node := more.value.value;
      }
    }

    /** One turn of that loop. */
    method ParsePostfixStep(node: Expr) returns (r: Answer<Option<Expr>>)
      requires Valid()
      modifies this
      ensures Valid() && depth == old(depth)
      ensures Did(r, G.PostfixStep(tables, node, old(Rest()), maxDepth - old(depth)), Rest())
      decreases |tokens| - i, 13
    {
      var dot := MatchSym(Dot);
      if dot {
        var name := Name();
        if name.Raised? {
          return Raised(name.reason);
        }
        return if G.AtSym(Looking(0), LBrace) then Raised(G.Unmodelled) else Done(Some(Property(node, name.value)));
      }
      if G.AtSym(Looking(0), LBrace) && node.Identifier? {
        return Raised(G.Unmodelled);
      }
      var bracket := MatchSym(LBracket);
      if bracket {
        var index := ParseIndex(node);
        return if index.Raised? then Raised(index.reason) else Done(Some(index.value));
      }
      return if G.AtSym(Looking(0), Colon) && node.Identifier? then Raised(G.Unmodelled) else Done(None);
    }

    method ParseIndex(base: Expr) returns (r: Answer<Expr>)
      requires Valid()
      modifies this
      ensures Valid() && depth == old(depth)
      ensures Did(r, G.ParseIndex(tables, base, old(Rest()), maxDepth - old(depth)), Rest())
      decreases |tokens| - i, 15
    {
      var open := MatchSym(DotDot);
      if open {
        r := ParseSliceEnd(base, None);
        return;
      }
      r := ParseExpression();
      if r.Raised? {
        return;
      }
      var range := MatchSym(DotDot);
      if range {
        r := ParseSliceEnd(base, Some(r.value));
        return;
      }
      var closed := MatchSym(RBracket);
      r := if closed then Done(Subscript(base, r.value)) else Raised(G.Mismatch);
    }

    method ParseSliceEnd(base: Expr, start: Option<Expr>) returns (r: Answer<Expr>)
      requires Valid()
      modifies this
      ensures Valid() && depth == old(depth)
      ensures Did(r, G.SliceEnd(tables, base, start, old(Rest()), maxDepth - old(depth)), Rest())
      decreases |tokens| - i, 14
    {
      var closed := MatchSym(RBracket);
      if closed {
        return Done(Slice(base, start, None));
      }
      r := ParseExpression();
      if r.Raised? {
        return;
      }
      closed := MatchSym(RBracket);
      r := if closed then Done(Slice(base, start, Some(r.value))) else Raised(G.Mismatch);
    }

    method ParseItems() returns (r: Answer<seq<Expr>>)
      requires Valid()
      modifies this
      ensures Valid() && depth == old(depth)
      ensures Did(r, G.ParseItems(tables, old(Rest()), maxDepth - old(depth)), Rest())
      decreases |tokens| - i, 14, 0
    {
      var items: seq<Expr> := [];
      ghost var d, goal := maxDepth - depth, G.ParseItems(tables, Rest(), maxDepth - depth);
      BeforeNone(goal);
      while true
        invariant Valid() && depth == old(depth) && old(i) <= i
        invariant Before(items, G.ParseItems(tables, Rest(), d)) == goal
        decreases |tokens| - i
      {
        ghost var here := Rest();
        var item := ParseExpression();
        if item.Raised? {
          return Raised(item.reason);
        }
        var comma := MatchSym(Comma);
        if !comma {
          return Done(items + [item.value]);
        }
        BeforeOne(items, item.value, G.ParseItems(tables, Rest(), d));
        items := items + [item.value];
      }
    }

    // ---- primaries -----------------------------------------------------------------------------

    method ParsePrimary() returns (r: Answer<Expr>)
      requires Valid()
      modifies this
      ensures Valid() && depth == old(depth)
      ensures Did(r, G.ParsePrimary(tables, old(Rest()), maxDepth - old(depth)), Rest())
      decreases |tokens| - i, 1
    {
      if i == |tokens| {
        return Raised(G.Mismatch);
      }
      match tokens[i]
      case IntTok(s) =>
        if !G.Decimal(s) {
          return Raised(G.Unmodelled);
        }
        Step();
        return Done(Integer(G.DecimalValue(s)));
      case FloatTok(_) => return Raised(G.Unmodelled);
      case StringTok(s) => Step(); return Done(StringLit(s));
      case Param(p) => Step(); return Done(Expr.Parameter(p));
      case Ident(name) => Step(); r := ParseNamed(name);
      case Keyword(word, _) => r := ParseKeyword(word);
      case Sym(s) =>
        if s == LBracket {
          Step();
          r := ParseList();
        } else {
          r := Raised(if s in {LBrace, LParen} then G.Unmodelled else G.Mismatch);
        }
    }

    method ParseKeyword(word: string) returns (r: Answer<Expr>)
      requires Valid() && G.AtWord(Rest(), word)
      modifies this
      ensures Valid() && depth == old(depth)
      ensures Did(r, G.ParsePrimary(tables, old(Rest()), maxDepth - old(depth)), Rest())
      decreases |tokens| - i, 0
    {
      if word == "TRUE" || word == "FALSE" {
        Step();
        return Done(Boolean(word == "TRUE"));
      }
      if word == "NULL" {
        Step();
        return Done(NullLit);
      }
      if word == "COUNT" && G.AtSym(Looking(1), LBrace) {
        return Raised(G.Unmodelled);
      }
      var name := G.CallableWord(word);
      if name.Some? {
        Step();
        r := ParseNamed(name.value);
        return;
      }
      return Raised(if word in {"CASE", "EXISTS", "ALL", "ANY", "NONE", "SINGLE"} then G.Unmodelled else G.Mismatch);
    }

    /** Reads ahead over `.name.name...`; the cursor goes back unless a call follows. */
    method LookPastDots() returns (r: Answer<bool>)
      requires Valid()
      modifies this`i
      ensures Valid()
      ensures match G.AfterDots(old(Rest()))
              case Got(after, _) => r == Done(G.AtSym(after, LParen)) && i == old(i)
              case Bad(why) => r == Raised(why)
    {
      var probe := i;
      ghost var goal := G.AfterDots(Rest());
      var dot := MatchSym(Dot);
      while dot
        invariant Valid() && probe <= i && (dot ==> probe < i)
        invariant goal == if dot then AfterName(G.UnquotedName(Rest())) else G.Got(Rest(), [])
        decreases |tokens| - i, dot
      {
        var name := Name();
        if name.Raised? {
          return Raised(name.reason);
        }
        dot := MatchSym(Dot);
      }
      var call := G.AtSym(Looking(0), LParen);
      i := probe;
      return Done(call);
    }

    method ParseNamed(name: string) returns (r: Answer<Expr>)
      requires Valid()
      modifies this
      ensures Valid() && depth == old(depth)
      ensures Did(r, G.ParseNamed(tables, name, old(Rest()), maxDepth - old(depth)), Rest())
      decreases |tokens| - i, 15
    {
      if G.ListFunction(tables, name) {
        return Raised(G.Unmodelled);
      }
      var dotted := LookPastDots();
      if dotted.Raised? {
        return Raised(dotted.reason);
      }
      if G.AtSym(Looking(0), Dot) && dotted.value {
        return Raised(G.Unmodelled);
      }
      var call := MatchSym(LParen);
      if call {
        r := ParseCall(name);
      } else {
        r := Done(Identifier(name));
      }
    }

    method ParseCall(name: string) returns (r: Answer<Expr>)
      requires Valid()
      modifies this
      ensures Valid() && depth == old(depth)
      ensures Did(r, G.ParseCall(tables, name, old(Rest()), maxDepth - old(depth)), Rest())
      decreases |tokens| - i, 15
    {
      var distinct := MatchWord("DISTINCT");
      var star := MatchSym(Asterisk);
      if star && Lower(tables, name) == "count" {
        var end := MatchSym(RParen);
        return if end then Done(Call("count", false, [StarArg])) else Raised(G.Mismatch);
      }
      var closed := MatchSym(RParen);
      if closed {
        return Done(G.CallNode(tables, name, distinct, []));
      }
      var args := ParseItems();
      if args.Raised? {
        return Raised(args.reason);
      }
      closed := MatchSym(RParen);
      return if closed then Done(G.CallNode(tables, name, distinct, args.value)) else Raised(G.Mismatch);
    }

    method ParseList() returns (r: Answer<Expr>)
      requires Valid()
      modifies this
      ensures Valid() && depth == old(depth)
      ensures Did(r, G.ParseList(tables, old(Rest()), maxDepth - old(depth)), Rest())
      decreases |tokens| - i, 15
    {
      var empty := MatchSym(RBracket);
      if empty {
        return Done(ListLit([]));
      }
      if G.AtSym(Looking(0), LParen) {
        return Raised(G.Unmodelled);
      }
      if G.AtName(Looking(0)) && G.AtSym(Looking(1), Equals) {
        var comprehension := TryPath();
        if comprehension.Raised? {
          return Raised(comprehension.reason);
        }
        if comprehension.value {
          return Raised(G.Unmodelled);
        }
      } else if G.AtName(Looking(0)) && G.AtWord(Looking(1), "IN") {
        return Raised(G.Unmodelled);
      }
      r := ParseListItems();
    }

    /** Tries a path pattern after `name =`, and puts the cursor back. */
    method TryPath() returns (r: Answer<bool>)
      requires Valid() && |Rest()| >= 2
      modifies this
      ensures Valid() && depth == old(depth)
      ensures match G.ParsePath(tables, old(Rest())[2..], maxDepth - old(depth))
              case Bad(why) => if why.Mismatch? then r == Done(false) && i == old(i) else r == Raised(why)
              case Got(_, rest) => r == Done(G.AtSym(rest, Pipe) || G.AtWord(rest, "WHERE")) && i == old(i)
      decreases |tokens| - i, 14
    {
      var saved := i;
      i := i + 2;
      assert Rest() == old(Rest())[2..];
      var path := ParsePathPattern();
      if path.Raised? && path.reason != G.Mismatch {
        return Raised(path.reason);
      }
      var more := path.Done? && (G.AtSym(Looking(0), Pipe) || G.AtWord(Looking(0), "WHERE"));
      i := saved;
      return Done(more);
    }

    method ParseListItems() returns (r: Answer<Expr>)
      requires Valid()
      modifies this
      ensures Valid() && depth == old(depth)
      ensures Did(r, G.ListItems(tables, old(Rest()), maxDepth - old(depth)), Rest())
      decreases |tokens| - i, 14, 1
    {
      var items := ParseItems();
      if items.Raised? {
        return Raised(items.reason);
      }
      var closed := MatchSym(RBracket);
      return if closed then Done(ListLit(items.value)) else Raised(G.Mismatch);
    }

    // ---- path patterns ---------------------------------------------------------------------------

    /** What follows `{`, up to and including `}`. */
    method ParseMapBody() returns (r: Answer<Entries>)
      requires Valid()
      modifies this
      ensures Valid() && depth == old(depth) && Did(r, G.MapBody(tables, old(Rest()), maxDepth - old(depth)), Rest())
      decreases |tokens| - i, 16
    {
      var empty := MatchSym(RBrace);
      if empty {
        return Done([]);
      }
      r := ParseEntries();
      if r.Done? {
        var closed := MatchSym(RBrace);
        if !closed {
          r := Raised(G.Mismatch);
        }
      }
    }

    method ParseEntries() returns (r: Answer<Entries>)
      requires Valid()
      modifies this
      ensures Valid() && depth == old(depth) && Did(r, G.MapEntries(tables, old(Rest()), maxDepth - old(depth)), Rest())
      decreases |tokens| - i, 15
    {
      var entries: Entries := [];
      ghost var d, goal := maxDepth - depth, G.MapEntries(tables, Rest(), maxDepth - depth);
      BeforeNone(goal);
      while true
        invariant Valid() && depth == old(depth)
        invariant Before(entries, G.MapEntries(tables, Rest(), d)) == goal
        decreases |tokens| - i
      {
        var entry := ParseEntry();
        if entry.Raised? {
          return Raised(entry.reason);
        }
        var comma := MatchSym(Comma);
        if !comma {
          return Done(entries + [entry.value]);
        }
        BeforeOne(entries, entry.value, G.MapEntries(tables, Rest(), d));
        entries := entries + [entry.value];
      }
    }

    method ParseEntry() returns (r: Answer<(string, Expr)>)
      requires Valid()
      modifies this
      ensures Valid() && depth == old(depth) && Did(r, G.MapEntry(tables, old(Rest()), maxDepth - old(depth)), Rest())
      decreases |tokens| - i, 14
    {
      var key := Name();
      if key.Raised? {
        return Raised(key.reason);
      }
      var colon := MatchSym(Colon);
      if !colon {
        return Raised(G.Mismatch);
      }
      var e := ParseExpression();
      return if e.Raised? then Raised(e.reason) else Done((key.value, e.value));
    }

    method ParseProperties() returns (r: Answer<Option<Entries>>)
      requires Valid()
      modifies this
      ensures Valid() && depth == old(depth) && Did(r, G.Properties(tables, old(Rest()), maxDepth - old(depth)), Rest())
      decreases |tokens| - i, 13
    {
      var open := MatchSym(LBrace);
      if !open {
        return Done(None);
      }
      var es := ParseMapBody();
      return if es.Raised? then Raised(es.reason) else Done(Some(es.value));
    }

    method ParseVariable() returns (x: Option<string>)
      requires Valid()
      modifies this`i
      ensures Valid() && G.Variable(old(Rest())) == G.Got(x, Rest())
    {
      if G.AtName(Looking(0)) {
        x := Some(tokens[i].text);
        Step();
      } else {
        x := None;
      }
    }

    method ParseLabels() returns (r: Answer<seq<string>>)
      requires Valid()
      modifies this`i
      ensures Valid() && Did(r, G.Labels(old(Rest())), Rest())
    {
      var colon := MatchSym(Colon);
      if !colon {
        return Done([]);
      }
      if G.AtSym(Looking(0), Bang) || G.AtSym(Looking(0), LParen) || (i < |tokens| && tokens[i].Param?) {
        return Raised(G.Unmodelled);
      }
      var first := Name();
      if first.Raised? {
        return Raised(first.reason);
      }
      if G.AtSym(Looking(0), Amp) || G.AtSym(Looking(0), Pipe) || G.AtSym(Looking(0), Percent) {
        return Raised(G.Unmodelled);
      }
      var more := ParseMoreLabels();
      return if more.Raised? then more else Done([first.value] + more.value);
    }

    method ParseMoreLabels() returns (r: Answer<seq<string>>)
      requires Valid()
      modifies this`i
      ensures Valid() && Did(r, G.MoreLabels(old(Rest())), Rest())
    {
      var labels: seq<string> := [];
      ghost var goal := G.MoreLabels(Rest());
      BeforeNone(goal);
      while true
        invariant Valid() && Before(labels, G.MoreLabels(Rest())) == goal
        decreases |tokens| - i
      {
        var colon := MatchSym(Colon);
        if !colon {
          assert labels + [] == labels;
          return Done(labels);
        }
        var name := Name();
        if name.Raised? {
          return Raised(name.reason);
        }
        BeforeOne(labels, name.value, G.MoreLabels(Rest()));
        labels := labels + [name.value];
      }
    }

    method ParseNodePattern() returns (r: Answer<NodePattern>)
      requires Valid()
      modifies this
      ensures Valid() && depth == old(depth) && Did(r, G.ParseNode(tables, old(Rest()), maxDepth - old(depth)), Rest())
      decreases |tokens| - i, 10
    {
      var head := ParseNodeHead();
      if head.Raised? {
        return Raised(head.reason);
      }
      r := ParseNodeEnd(head.value);
    }

    method ParseNodeHead() returns (r: Answer<NodePattern>)
      requires Valid()
      modifies this`i
      ensures Valid() && Did(r, G.NodeHead(old(Rest())), Rest())
    {
      var open := MatchSym(LParen);
      if !open {
        return Raised(G.Mismatch);
      }
      var variable := ParseVariable();
      var labels := ParseLabels();
      if labels.Raised? {
        return Raised(labels.reason);
      }
      return Done(NodePattern(variable, labels.value, None, None));
    }

    method ParseNodeEnd(head: NodePattern) returns (r: Answer<NodePattern>)
      requires Valid()
      modifies this
      ensures Valid() && depth == old(depth)
              && Did(r, G.NodeEnd(tables, old(Rest()), head, maxDepth - old(depth)), Rest())
      decreases |tokens| - i, 14
    {
      var properties := ParseProperties();
      if properties.Raised? {
        return Raised(properties.reason);
      }
      if G.AtWord(Looking(0), "WHERE") {
        return Raised(G.Unmodelled);
      }
      var closed := MatchSym(RParen);
      return if closed then Done(head.(properties := properties.value)) else Raised(G.Mismatch);
    }

    method ParseTypes() returns (r: Answer<seq<string>>)
      requires Valid()
      modifies this`i
      ensures Valid() && Did(r, G.Types(old(Rest())), Rest())
    {
      var colon := MatchSym(Colon);
      if !colon {
        return Done([]);
      }
      var first := Name();
      if first.Raised? {
        return Raised(first.reason);
      }
      var more := ParseMoreTypes();
      return if more.Raised? then more else Done([first.value] + more.value);
    }

    method ParseMoreTypes() returns (r: Answer<seq<string>>)
      requires Valid()
      modifies this`i
      ensures Valid() && Did(r, G.MoreTypes(old(Rest())), Rest())
    {
      var types: seq<string> := [];
      ghost var goal := G.MoreTypes(Rest());
      BeforeNone(goal);
      while true
        invariant Valid() && Before(types, G.MoreTypes(Rest())) == goal
        decreases |tokens| - i
      {
        ghost var here := Rest();
        var bar := MatchSym(Pipe);
        if !bar {
          assert types + [] == types;
          return Done(types);
        }
        var colon := MatchSym(Colon);
        assert colon ==> Rest() == here[2..];
        var name := Name();
        if name.Raised? {
          return Raised(name.reason);
        }
        BeforeOne(types, name.value, G.MoreTypes(Rest()));
        types := types + [name.value];
      }
    }

    method ParseInteger() returns (r: Answer<Option<nat>>)
      requires Valid()
      modifies this`i
      ensures Valid() && Did(r, G.IntegerAt(old(Rest())), Rest())
    {
      if i < |tokens| && tokens[i].IntTok? {
        if !G.Decimal(tokens[i].text) {
          return Raised(G.Unmodelled);
        }
        var n := G.DecimalValue(tokens[i].text);
        Step();
        return Done(Some(n));
      }
      return Done(None);
    }

    method ParseHops() returns (r: Answer<G.Hops>)
      requires Valid()
      modifies this`i
      ensures Valid() && Did(r, G.HopBounds(old(Rest())), Rest())
    {
      var star := MatchSym(Asterisk);
      if !star {
        return Done(G.Hops(None, None, false));
      }
      if G.AtName(Looking(0)) {
        return Raised(G.Unmodelled);
      }
      var min := ParseInteger();
      if min.Raised? {
        return Raised(min.reason);
      }
      var range := MatchSym(DotDot);
      if range {
        var max := ParseInteger();
        if max.Raised? {
          return Raised(max.reason);
        }
        return Done(G.Hops(if min.value.Some? then min.value else Some(1), max.value, true));
      }
      return Done(if min.value.Some? then G.Hops(min.value, min.value, true) else G.Hops(Some(1), None, true));
    }

    method ParseRelDetail(dir: Direction) returns (r: Answer<RelPattern>)
      requires Valid()
      modifies this
      ensures Valid() && depth == old(depth)
              && Did(r, G.Detail(tables, old(Rest()), dir, maxDepth - old(depth)), Rest())
      decreases |tokens| - i, 15
    {
      r := ParseDetailHead(dir);
      if r.Done? {
        r := ParseDetailEnd(r.value);
      }
    }

    method ParseDetailHead(dir: Direction) returns (r: Answer<RelPattern>)
      requires Valid()
      modifies this`i
      ensures Valid() && Did(r, G.DetailHead(old(Rest()), dir), Rest())
    {
      var variable := ParseVariable();
      var types := ParseTypes();
      if types.Raised? {
        return Raised(types.reason);
      }
      var hops := ParseHops();
      if hops.Raised? {
        return Raised(hops.reason);
      }
      var h := hops.value;
      return Done(RelPattern(variable, types.value, None, dir, h.min, h.max, h.variable, None));
    }

    method ParseDetailEnd(head: RelPattern) returns (r: Answer<RelPattern>)
      requires Valid()
      modifies this
      ensures Valid() && depth == old(depth)
              && Did(r, G.DetailEnd(tables, old(Rest()), head, maxDepth - old(depth)), Rest())
      decreases |tokens| - i, 14
    {
      var properties := ParseProperties();
      if properties.Raised? {
        return Raised(properties.reason);
      }
      if G.AtWord(Looking(0), "WHERE") {
        return Raised(G.Unmodelled);
      }
      var closed := MatchSym(RBracket);
      return if closed then Done(head.(properties := properties.value)) else Raised(G.Mismatch);
    }

    /** The end of a bracketed relationship settles its direction. */
    method ParseRelEnd(rel: RelPattern, arrow: Direction) returns (r: Answer<RelPattern>)
      requires Valid()
      modifies this`i
      ensures Valid()
      ensures if G.AtSym(old(Rest()), ArrowRight) then r == Done(rel.(direction := arrow)) && Rest() == old(Rest())[1..]
              else if G.AtSym(old(Rest()), Minus) then r == Done(rel) && Rest() == old(Rest())[1..]
              else r == Raised(G.Mismatch)
    {
      var right := MatchSym(ArrowRight);
      if right {
        return Done(rel.(direction := arrow));
      }
      var minus := MatchSym(Minus);
      return if minus then Done(rel) else Raised(G.Mismatch);
    }

    method ParseRelationshipPattern() returns (r: Answer<RelPattern>)
      requires Valid()
      modifies this
      ensures Valid() && depth == old(depth) && Did(r, G.ParseRel(tables, old(Rest()), maxDepth - old(depth)), Rest())
      decreases |tokens| - i, 9
    {
      var left := MatchSym(ArrowLeft);
      if left {
        r := ParseAfterLeft();
        return;
      }
      var minus := MatchSym(Minus);
      if !minus {
        return Raised(G.Mismatch);
      }
      r := ParseAfterMinus();
    }

    method ParseAfterLeft() returns (r: Answer<RelPattern>)
      requires Valid()
      modifies this
      ensures Valid() && depth == old(depth) && Did(r, G.AfterLeft(tables, old(Rest()), maxDepth - old(depth)), Rest())
      decreases |tokens| - i, 16
    {
      var bracket := MatchSym(LBracket);
      if bracket {
        r := ParseRelDetail(Incoming);
        if r.Done? {
          r := ParseRelEnd(r.value, Both);
        }
        return;
      }
      var right := MatchSym(ArrowRight);
      if right {
        return Done(G.Bare(Both));
      }
      var minus := MatchSym(Minus);
      return if minus then Done(G.Bare(Incoming)) else Raised(G.Mismatch);
    }

    method ParseAfterMinus() returns (r: Answer<RelPattern>)
      requires Valid()
      modifies this
      ensures Valid() && depth == old(depth) && Did(r, G.AfterMinus(tables, old(Rest()), maxDepth - old(depth)), Rest())
      decreases |tokens| - i, 16
    {
      var bracket := MatchSym(LBracket);
      if bracket {
        r := ParseRelDetail(Both);
        if r.Done? {
          r := ParseRelEnd(r.value, Outgoing);
        }
        return;
      }
      var right := MatchSym(ArrowRight);
      if right {
        return Done(G.Bare(Outgoing));
      }
      var _ := MatchSym(Minus);
      return Done(G.Bare(Both));
    }

    /** `while self._is_rel_start()`: a relationship and a node each time. */
    method ParseSteps() returns (r: Answer<seq<Element>>)
      requires Valid()
      modifies this
      ensures Valid() && depth == old(depth) && Did(r, G.Steps(tables, old(Rest()), maxDepth - old(depth)), Rest())
      decreases |tokens| - i, 11
    {
      var elements: seq<Element> := [];
      ghost var d, goal := maxDepth - depth, G.Steps(tables, Rest(), maxDepth - depth);
      BeforeNone(goal);
      while G.RelAhead(Looking(0))
        invariant Valid() && depth == old(depth) && Before(elements, G.Steps(tables, Rest(), d)) == goal
        decreases |tokens| - i
      {
        var pair := ParseOneStep();
        if pair.Raised? {
          return pair;
        }
        BeforeMore(elements, pair.value, G.Steps(tables, Rest(), d));
        elements := elements + pair.value;
      }
      assert elements + [] == elements;
      return Done(elements);
    }

    method ParseOneStep() returns (r: Answer<seq<Element>>)
      requires Valid()
      modifies this
      ensures Valid() && depth == old(depth) && Did(r, G.OneStep(tables, old(Rest()), maxDepth - old(depth)), Rest())
      decreases |tokens| - i, 10
    {
      var rel := ParseRelationshipPattern();
      if rel.Raised? {
        return Raised(rel.reason);
      }
      var node := ParseNodePattern();
      return if node.Raised? then Raised(node.reason) else Done([RelEl(rel.value), NodeEl(node.value)]);
    }

    method ParsePathPattern() returns (r: Answer<Path>)
      requires Valid()
      modifies this
      ensures Valid() && depth == old(depth) && Did(r, G.ParsePath(tables, old(Rest()), maxDepth - old(depth)), Rest())
      decreases |tokens| - i, 12
    {
      if depth == maxDepth {
        return Raised(G.TooDeep);
      }
      depth := depth + 1;
      var name: Option<string> := None;
      ghost var start := Rest();
      if G.AtName(Looking(0)) && G.AtSym(Looking(1), Equals) {
        name := Some(tokens[i].text);
        i := i + 2;
        assert Rest() == start[2..];
      }
      var elements := ParseElements();
      r := if elements.Raised? then Raised(elements.reason) else Done(Path(name, elements.value));
      depth := depth - 1;
    }

    method ParseElements() returns (r: Answer<seq<Element>>)
      requires Valid()
      modifies this
      ensures Valid() && depth == old(depth) && Did(r, G.Elements(tables, old(Rest()), maxDepth - old(depth)), Rest())
      decreases |tokens| - i, 11
    {
      if G.AtWord(Looking(0), "SHORTESTPATH") || G.AtWord(Looking(0), "ALLSHORTESTPATHS")
         || (G.AtSym(Looking(0), LParen) && G.AtSym(Looking(1), LParen)) {
        return Raised(G.Unmodelled);
      }
      var node := ParseNodePattern();
      if node.Raised? {
        return Raised(node.reason);
      }
      var steps := ParseSteps();
      return if steps.Raised? then steps else Done([NodeEl(node.value)] + steps.value);
    }
  }

  /** The dots after one more name. */
  ghost function AfterName(p: G.Parsed<string>): G.Parsed<seq<Token>> {
    match p
    case Bad(why) => G.Bad(why)
    case Got(_, rest) => G.AfterDots(rest)
  }

  /** Items already parsed, in front of those still to come. */
  ghost function Before<T>(items: seq<T>, p: G.Parsed<seq<T>>): G.Parsed<seq<T>> {
    match p
    case Bad(why) => G.Bad(why)
    case Got(more, rest) => G.Got(items + more, rest)
  }

  lemma BeforeNone<T>(p: G.Parsed<seq<T>>)
    ensures Before([], p) == p
  {
    if p.Got? { assert [] + p.value == p.value; }
  }

  lemma BeforeMore<T>(items: seq<T>, more: seq<T>, p: G.Parsed<seq<T>>)
    ensures Before(items + more, p) == Before(items, Before(more, p))
  {
    if p.Got? { ConcatAssoc(items, more, p.value); }
  }

  lemma BeforeOne<T>(items: seq<T>, e: T, p: G.Parsed<seq<T>>)
    ensures Before(items + [e], p) == Before(items, Before([e], p))
  {
    BeforeMore(items, [e], p);
  }
}
