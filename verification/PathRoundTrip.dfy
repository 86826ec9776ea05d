/** Parsing the tokens of a printed path pattern gives the pattern back, exactly when its hop bounds are canonical. */
module PathRoundTrip {
  import opened Prelude
  import opened Ast
  import opened Tokens
  import opened Grammar
  import opened Render
  import opened PathRender
  import E = ExprRoundTrip

  lemma Tail(tok: Token, k: seq<Token>)
    ensures ([tok] + k)[1..] == k
  {
  }

  lemma KeyReads(t: Tables, key: string, k: seq<Token>)
    ensures UnquotedName([KeyToken(t, key)] + k) == Got(key, k)
  {
    E.KeyName(t, key, k);
  }

  // ---- property maps ---------------------------------------------------------------------------

  lemma {:induction false} ReadEntries(t: Tables, es: Entries, k: seq<Token>, d: nat)
    requires es != [] && EntriesOk(t, es, d)
    ensures MapEntries(t, EntryToks(t, es, [Sym(RBrace)] + k), d) == Got(es, [Sym(RBrace)] + k)
  {
    var end := [Sym(RBrace)] + k;
    if |es| == 1 {
      E.CloserStops(RBrace, k);
      ReadEntry(t, es[0], end, d);
      assert es == [es[0]];
    } else {
      var more := EntryToks(t, es[1..], end);
      E.CloserStops(Comma, more);
      ReadEntry(t, es[0], [Sym(Comma)] + more, d);
      Tail(Sym(Comma), more);
      ReadEntries(t, es[1..], k, d);
      assert [es[0]] + es[1..] == es;
    }
  }

  lemma ReadEntry(t: Tables, entry: (string, Expr), k: seq<Token>, d: nat)
    requires Levels(0, entry.1) && Leaves(t, entry.1) && Nest(entry.1) < d && E.Stops(0, k)
    ensures MapEntry(t, [KeyToken(t, entry.0)] + ([Sym(Colon)] + Toks(t, entry.1, k)), d) == Got(entry, k)
  {
    KeyReads(t, entry.0, [Sym(Colon)] + Toks(t, entry.1, k));
    Tail(Sym(Colon), Toks(t, entry.1, k));
    E.ReadExpr(t, entry.1, k, d);
  }

  lemma ReadMapBody(t: Tables, es: Entries, k: seq<Token>, d: nat)
    requires EntriesOk(t, es, d)
    ensures MapBody(t, EntryToks(t, es, [Sym(RBrace)] + k), d) == Got(es, k)
  {
    Tail(Sym(RBrace), k);
    if es != [] { ReadEntries(t, es, k, d); }
  }

  lemma ReadProperties(t: Tables, p: Option<Entries>, k: seq<Token>, d: nat)
    requires EntriesOk(t, EntriesOf(p), d) && !AtSym(k, LBrace)
    ensures Properties(t, PropertyToks(t, p, k), d) == Got(p, k)
  {
    if p.Some? {
      Tail(Sym(LBrace), EntryToks(t, p.value, [Sym(RBrace)] + k));
      ReadMapBody(t, p.value, k, d);
    }
  }

  // ---- nodes -----------------------------------------------------------------------------------------

  /** A token that ends a list of labels or types. */
  predicate EndsNames(k: seq<Token>) {
    k != [] && k[0] in {Sym(LBrace), Sym(RParen), Sym(RBracket), Sym(Asterisk)}
  }

  lemma ReadVariable(x: Option<string>, k: seq<Token>)
    requires !AtName(k)
    ensures Variable(NameToks(x, k)) == Got(x, k)
  {
    if x.Some? { Tail(Ident(x.value), k); }
  }

  lemma {:induction false} ReadMoreLabels(t: Tables, labels: seq<string>, k: seq<Token>)
    requires EndsNames(k)
    ensures MoreLabels(LabelToks(t, labels, k)) == Got(labels, k)
  {
    if labels != [] {
      var us := LabelToks(t, labels[1..], k);
      Tail(Sym(Colon), [KeyToken(t, labels[0])] + us);
      KeyReads(t, labels[0], us);
      ReadMoreLabels(t, labels[1..], k);
      assert [labels[0]] + labels[1..] == labels;
    }
  }

  lemma NextLabel(t: Tables, labels: seq<string>, k: seq<Token>)
    requires EndsNames(k)
    ensures var us := LabelToks(t, labels, k); !AtSym(us, Amp) && !AtSym(us, Pipe) && !AtSym(us, Percent)
  {
  }

  lemma FirstLabel(t: Tables, name: string, us: seq<Token>)
    ensures var ts := [Sym(Colon)] + ([KeyToken(t, name)] + us);
            && UnquotedName(ts[1..]) == Got(name, us)
            && !AtSym(ts[1..], Bang) && !AtSym(ts[1..], LParen) && !ts[1].Param?
  {
    Tail(Sym(Colon), [KeyToken(t, name)] + us);
    KeyReads(t, name, us);
  }

  lemma ReadLabels(t: Tables, labels: seq<string>, k: seq<Token>)
    requires EndsNames(k)
    ensures Labels(LabelToks(t, labels, k)) == Got(labels, k)
  {
    if labels != [] {
      FirstLabel(t, labels[0], LabelToks(t, labels[1..], k));
      NextLabel(t, labels[1..], k);
      ReadMoreLabels(t, labels[1..], k);
      assert [labels[0]] + labels[1..] == labels;
    }
  }

  lemma LabelsNoName(t: Tables, labels: seq<string>, k: seq<Token>)
    requires EndsNames(k)
    ensures !AtName(LabelToks(t, labels, k))
  {
  }

  lemma PropertiesEndNames(t: Tables, p: Option<Entries>, k: seq<Token>)
    requires EndsNames(k)
    ensures EndsNames(PropertyToks(t, p, k))
  {
  }

  lemma ReadNode(t: Tables, n: NodePattern, k: seq<Token>, d: nat)
    requires NodeOk(t, n, d)
    ensures ParseNode(t, NodeToks(t, n, k), d) == Got(n, k)
  {
    var end := [Sym(RParen)] + k;
    var ps := PropertyToks(t, n.properties, end);
    var ls := LabelToks(t, n.labels, ps);
    Tail(Sym(LParen), NameToks(n.variable, ls));
    Tail(Sym(RParen), k);
    PropertiesEndNames(t, n.properties, end);
    LabelsNoName(t, n.labels, ps);
    ReadVariable(n.variable, ls);
    ReadLabels(t, n.labels, ps);
    ReadProperties(t, n.properties, end, d);
  }

  // ---- relationships ---------------------------------------------------------------------------------

  lemma {:induction false} ReadMoreTypes(t: Tables, types: seq<string>, k: seq<Token>)
    requires EndsNames(k)
    ensures MoreTypes(MoreTypeToks(t, types, k)) == Got(types, k)
  {
    if types != [] {
      var us := MoreTypeToks(t, types[1..], k);
      Tail(Sym(Pipe), [KeyToken(t, types[0])] + us);
      KeyReads(t, types[0], us);
      ReadMoreTypes(t, types[1..], k);
      assert [types[0]] + types[1..] == types;
    }
  }

  lemma ReadTypes(t: Tables, types: seq<string>, k: seq<Token>)
    requires EndsNames(k)
    ensures Types(TypeToks(t, types, k)) == Got(types, k)
  {
    if types != [] {
      var us := MoreTypeToks(t, types[1..], k);
      Tail(Sym(Colon), [KeyToken(t, types[0])] + us);
      KeyReads(t, types[0], us);
      ReadMoreTypes(t, types[1..], k);
      assert [types[0]] + types[1..] == types;
    }
  }

  lemma ReadCount(n: nat, k: seq<Token>)
    ensures IntegerAt([Count(n)] + k) == Got(Some(n), k)
  {
    E.DigitsValue(n);
    Tail(Count(n), k);
  }

  /** The bounds the parser makes of printed ones: a missing lower bound becomes 1. */
  function Canonical(rp: RelPattern): Hops {
    if rp.variableLength then Hops(Some(if rp.minHops.Some? then rp.minHops.value else 1), rp.maxHops, true)
    else Hops(None, None, false)
  }

  lemma ReadBounds(rp: RelPattern, k: seq<Token>)
    requires EndsNames(k) && k[0] != Sym(Asterisk)
    ensures HopBounds(if rp.variableLength then [Sym(Asterisk)] + BoundToks(rp, k) else k) == Got(Canonical(rp), k)
  {
    if rp.variableLength {
      if rp.minHops.Some? { ReadLower(rp, k); } else { ReadUpper(rp.maxHops, k); }
    }
  }

  lemma ReadUpper(max: Option<nat>, k: seq<Token>)
    requires EndsNames(k) && k[0] != Sym(Asterisk)
    ensures HopBounds([Sym(Asterisk)] + (if max.Some? then [Sym(DotDot)] + ([Count(max.value)] + k) else k))
            == Got(Hops(Some(1), max, true), k)
  {
    var us := if max.Some? then [Sym(DotDot)] + ([Count(max.value)] + k) else k;
    Tail(Sym(Asterisk), us);
    if max.Some? {
      Tail(Sym(DotDot), [Count(max.value)] + k);
      ReadCount(max.value, k);
    }
  }

  lemma ReadExactly(min: nat, k: seq<Token>)
    requires EndsNames(k)
    ensures HopBounds([Sym(Asterisk)] + ([Count(min)] + k)) == Got(Hops(Some(min), Some(min), true), k)
  {
    Tail(Sym(Asterisk), [Count(min)] + k);
    ReadCount(min, k);
  }

  lemma ReadRange(min: nat, max: Option<nat>, k: seq<Token>)
    requires EndsNames(k)
    ensures HopBounds([Sym(Asterisk)] +
            ([Count(min)] + ([Sym(DotDot)] + (if max.Some? then [Count(max.value)] + k else k))))
            == Got(Hops(Some(min), max, true), k)
  {
    var after := if max.Some? then [Count(max.value)] + k else k;
    Tail(Sym(Asterisk), [Count(min)] + ([Sym(DotDot)] + after));
    ReadCount(min, [Sym(DotDot)] + after);
    Tail(Sym(DotDot), after);
    if max.Some? { ReadCount(max.value, k); }
  }

  lemma ReadLower(rp: RelPattern, k: seq<Token>)
    requires EndsNames(k) && rp.variableLength && rp.minHops.Some?
    ensures HopBounds([Sym(Asterisk)] + BoundToks(rp, k)) == Got(Canonical(rp), k)
  {
    if rp.maxHops == rp.minHops {
      ReadExactly(rp.minHops.value, k);
    } else {
      ReadRange(rp.minHops.value, rp.maxHops, k);
    }
  }

  /** What a relationship comes back as: itself, apart from bounds that are not canonical. */
  function Back(rp: RelPattern): RelPattern {
    rp.(minHops := Canonical(rp).min, maxHops := Canonical(rp).max)
  }

  lemma TypesNoName(t: Tables, types: seq<string>, k: seq<Token>)
    requires EndsNames(k)
    ensures !AtName(TypeToks(t, types, k))
  {
  }

  lemma ReadDetail(t: Tables, rp: RelPattern, dir: Direction, k: seq<Token>, d: nat)
    requires RelOk(t, rp, d)
    ensures Detail(t, DetailToks(t, rp, [Sym(RBracket)] + k), dir, d) == Got(Back(rp).(direction := dir), k)
  {
    var end := [Sym(RBracket)] + k;
    var ps := PropertyToks(t, rp.properties, end);
    var hs := if rp.variableLength then [Sym(Asterisk)] + BoundToks(rp, ps) else ps;
    var ts := TypeToks(t, rp.types, hs);
    PropertiesEndNames(t, rp.properties, end);
    TypesNoName(t, rp.types, hs);
    ReadVariable(rp.variable, ts);
    ReadTypes(t, rp.types, hs);
    ReadBounds(rp, ps);
    ReadProperties(t, rp.properties, end, d);
    Tail(Sym(RBracket), k);
  }

  /** An unbracketed relationship has nothing but its direction. */
  lemma BareBack(rp: RelPattern)
    requires !Bracketed(rp) && rp.where == None
    ensures Back(rp) == Bare(rp.direction)
  {
  }

  /** The end of a relationship that starts with `-`. */
  function Tip(dir: Direction): Token {
    if dir.Outgoing? then Sym(ArrowRight) else Sym(Minus)
  }

  lemma DetailThenTip(t: Tables, ts: seq<Token>, rel: RelPattern, dir: Direction, k: seq<Token>, d: nat)
    requires !dir.Incoming? && rel.direction.Both? && Detail(t, ts, Both, d) == Got(rel, [Tip(dir)] + k)
    ensures AfterMinus(t, [Sym(LBracket)] + ts, d) == Got(rel.(direction := dir), k)
  {
    Tail(Sym(LBracket), ts);
    Tail(Tip(dir), k);
  }

  lemma BareTip(t: Tables, dir: Direction, k: seq<Token>, d: nat)
    requires !dir.Incoming?
    ensures AfterMinus(t, [Tip(dir)] + k, d) == Got(Bare(dir), k)
  {
    Tail(Tip(dir), k);
  }

  lemma ReadRight(t: Tables, rp: RelPattern, k: seq<Token>, d: nat)
    requires RelOk(t, rp, d) && !rp.direction.Incoming?
    ensures AfterMinus(t, BracketToks(t, rp, [Tip(rp.direction)] + k), d) == Got(Back(rp), k)
  {
    if Bracketed(rp) {
      var us := [Tip(rp.direction)] + k;
      ReadDetail(t, rp, Both, us, d);
      DetailThenTip(t, DetailToks(t, rp, [Sym(RBracket)] + us), Back(rp).(direction := Both), rp.direction, k, d);
    } else {
      BareBack(rp);
      BareTip(t, rp.direction, k, d);
    }
  }

  lemma DetailThenMinus(t: Tables, ts: seq<Token>, rel: RelPattern, k: seq<Token>, d: nat)
    requires Detail(t, ts, Incoming, d) == Got(rel, [Sym(Minus)] + k)
    ensures AfterLeft(t, [Sym(LBracket)] + ts, d) == Got(rel, k)
  {
    Tail(Sym(LBracket), ts);
    Tail(Sym(Minus), k);
  }

  lemma ReadLeftward(t: Tables, rp: RelPattern, k: seq<Token>, d: nat)
    requires RelOk(t, rp, d) && rp.direction.Incoming?
    ensures AfterLeft(t, BracketToks(t, rp, [Sym(Minus)] + k), d) == Got(Back(rp), k)
  {
    var us := [Sym(Minus)] + k;
    if Bracketed(rp) {
      ReadDetail(t, rp, Incoming, us, d);
      DetailThenMinus(t, DetailToks(t, rp, [Sym(RBracket)] + us), Back(rp), k, d);
    } else {
      BareBack(rp);
      Tail(Sym(Minus), k);
    }
  }

  lemma ReadRel(t: Tables, rp: RelPattern, k: seq<Token>, d: nat)
    requires RelOk(t, rp, d)
    ensures ParseRel(t, RelToks(t, rp, k), d) == Got(Back(rp), k) && RelAhead(RelToks(t, rp, k))
  {
    if rp.direction.Incoming? {
      ReadLeftward(t, rp, k, d);
      Tail(Sym(ArrowLeft), BracketToks(t, rp, [Sym(Minus)] + k));
    } else {
      ReadRight(t, rp, k, d);
      Tail(Sym(Minus), BracketToks(t, rp, [Tip(rp.direction)] + k));
    }
  }

  // ---- paths ------------------------------------------------------------------------------------------

  function BackAll(es: seq<Element>): seq<Element> {
    if es == [] then []
    else [match es[0] case NodeEl(n) => NodeEl(n) case RelEl(r) => RelEl(Back(r))] + BackAll(es[1..])
  }

  lemma BackPair(es: seq<Element>)
    requires |es| >= 2 && es[0].RelEl? && es[1].NodeEl?
    ensures BackAll(es) == [RelEl(Back(es[0].rel)), es[1]] + BackAll(es[2..])
  {
    assert es[1..][1..] == es[2..];
    assert BackAll(es[1..]) == [es[1]] + BackAll(es[2..]);
    ConcatAssoc([RelEl(Back(es[0].rel))], [es[1]], BackAll(es[2..]));
    assert [RelEl(Back(es[0].rel))] + [es[1]] == [RelEl(Back(es[0].rel)), es[1]];
  }

  lemma PairToks(t: Tables, es: seq<Element>, k: seq<Token>)
    requires |es| >= 2 && es[0].RelEl? && es[1].NodeEl?
    ensures ElementsToks(t, es, k) == RelToks(t, es[0].rel, NodeToks(t, es[1].node, ElementsToks(t, es[2..], k)))
  {
    assert es[1..][1..] == es[2..];
  }

  lemma {:induction false} ReadSteps(t: Tables, es: seq<Element>, k: seq<Token>, d: nat)
    requires StepsOk(t, es, d) && !RelAhead(k)
    ensures Steps(t, ElementsToks(t, es, k), d) == Got(BackAll(es), k)
    decreases |es|
  {
    if es != [] {
      var more := ElementsToks(t, es[2..], k);
      PairToks(t, es, k);
      ReadRel(t, es[0].rel, NodeToks(t, es[1].node, more), d);
      ReadNode(t, es[1].node, more, d);
      ReadSteps(t, es[2..], k, d);
      BackPair(es);
    }
  }

  lemma NodeNotGroup(t: Tables, n: NodePattern, k: seq<Token>)
    ensures var ts := NodeToks(t, n, k); AtSym(ts, LParen) && !AtSym(ts[1..], LParen)
  {
    var ps := PropertyToks(t, n.properties, [Sym(RParen)] + k);
    Tail(Sym(LParen), NameToks(n.variable, LabelToks(t, n.labels, ps)));
  }

  lemma ReadElements(t: Tables, es: seq<Element>, k: seq<Token>, d: nat)
    requires es != [] && es[0].NodeEl? && NodeOk(t, es[0].node, d) && StepsOk(t, es[1..], d) && !RelAhead(k)
    ensures Elements(t, ElementsToks(t, es, k), d) == Got(BackAll(es), k)
    ensures AtSym(ElementsToks(t, es, k), LParen)
  {
    var more := ElementsToks(t, es[1..], k);
    NodeNotGroup(t, es[0].node, more);
    ReadNode(t, es[0].node, more, d);
    ReadSteps(t, es[1..], k, d);
  }

  lemma NamedPath(t: Tables, x: string, es: seq<Element>, us: seq<Token>, k: seq<Token>, d: nat)
    requires d > 0 && Elements(t, us, d - 1) == Got(es, k)
    ensures ParsePath(t, [Ident(x)] + ([Sym(Equals)] + us), d) == Got(Path(Some(x), es), k)
  {
    Tail(Ident(x), [Sym(Equals)] + us);
    assert ([Ident(x)] + ([Sym(Equals)] + us))[2..] == us;
  }

  lemma UnnamedPath(t: Tables, es: seq<Element>, us: seq<Token>, k: seq<Token>, d: nat)
    requires d > 0 && AtSym(us, LParen) && Elements(t, us, d - 1) == Got(es, k)
    ensures ParsePath(t, us, d) == Got(Path(None, es), k)
  {
  }

  /** What comes back: the pattern, with the parser's lower bounds. */
  lemma ReadPath(t: Tables, p: Path, k: seq<Token>, d: nat)
    requires d > 0 && PathOk(t, p, d - 1) && !RelAhead(k)
    ensures ParsePath(t, PathToks(t, p, k), d) == Got(p.(elements := BackAll(p.elements)), k)
  {
    var us := ElementsToks(t, p.elements, k);
    ReadElements(t, p.elements, k, d - 1);
    if p.variable.Some? {
      NamedPath(t, p.variable.value, BackAll(p.elements), us, k, d);
    } else {
      UnnamedPath(t, BackAll(p.elements), us, k, d);
    }
  }

  lemma {:induction false} BackSame(es: seq<Element>)
    ensures BackAll(es) == es <==> AllBoundsOk(es)
  {
    if es != [] {
      BackSame(es[1..]);
      assert es == [es[0]] + es[1..];
      assert forall i :: 0 <= i < |es[1..]| ==> es[1..][i] == es[i + 1];
      if AllBoundsOk(es[1..]) && (es[0].RelEl? ==> BoundsOk(es[0].rel)) {
        forall i | 0 <= i < |es| && es[i].RelEl? ensures BoundsOk(es[i].rel) {
          if i > 0 { assert es[i] == es[1..][i - 1]; }
        }
      }
      if BackAll(es) == es {
        assert BackAll(es)[0] == es[0] && BackAll(es)[1..] == es[1..];
      }
    }
  }

  /** Printing and parsing a path pattern gives it back, and stops at the follow token, exactly when every
      variable-length relationship has a lower bound and no other has any. */
  lemma PathRoundTripExactly(t: Tables, p: Path, k: seq<Token>, d: nat)
    requires d > 0 && PathOk(t, p, d - 1) && !RelAhead(k)
    ensures ParsePath(t, PathToks(t, p, k), d) == Got(p, k) <==> AllBoundsOk(p.elements)
  {
    ReadPath(t, p, k, d);
    BackSame(p.elements);
  }
}
