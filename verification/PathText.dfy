/** Lexing a printed path pattern gives its tokens; with the parser, printing and reading back is the identity. */
module PathText {
  import opened Prelude
  import opened Ast
  import opened Tokens
  import opened Spelling
  import opened Render
  import opened ExprText
  import opened PathRender
  import G = Grammar
  import R = PathRoundTrip

  // ---- the text of a pattern, followed by more text ------------------------------------------

  function NameOn(t: Tables, x: Option<string>, k: string): string {
    if x.Some? then Spelling.Identifier(t, x.value) + k else k
  }

  function LabelsOn(t: Tables, labels: seq<string>, k: string): string {
    if labels == [] then k else ":" + (Spelling.Identifier(t, labels[0]) + LabelsOn(t, labels[1..], k))
  }

  function MoreTypesOn(t: Tables, types: seq<string>, k: string): string {
    if types == [] then k else "|" + (Spelling.Identifier(t, types[0]) + MoreTypesOn(t, types[1..], k))
  }

  function TypesOn(t: Tables, types: seq<string>, k: string): string {
    if types == [] then k else ":" + (Spelling.Identifier(t, types[0]) + MoreTypesOn(t, types[1..], k))
  }

  function EntriesOn(t: Tables, es: Entries, k: string): string {
    if es == [] then k
    else es[0].0 + (":" + (" " + TextOn(t, es[0].1, if |es| == 1 then k else "," + (" " + EntriesOn(t, es[1..], k)))))
  }

  function PropertiesOn(t: Tables, p: Option<Entries>, k: string): string {
    if p.Some? then "{" + EntriesOn(t, p.value, "}" + k) else k
  }

  function NodeOn(t: Tables, n: NodePattern, k: string): string {
    "(" + NameOn(t, n.variable, LabelsOn(t, n.labels, PropertiesOn(t, n.properties, ")" + k)))
  }

  function BoundsOn(rp: RelPattern, k: string): string {
    if rp.minHops.Some? && rp.maxHops.Some? then
      if rp.minHops == rp.maxHops then Digits(rp.minHops.value) + k
      else Digits(rp.minHops.value) + (".." + (Digits(rp.maxHops.value) + k))
    else if rp.minHops.Some? then Digits(rp.minHops.value) + (".." + k)
    else if rp.maxHops.Some? then ".." + (Digits(rp.maxHops.value) + k)
    else k
  }

  function StarOn(rp: RelPattern, k: string): string {
    if rp.variableLength then "*" + BoundsOn(rp, k) else k
  }

  function DetailOn(t: Tables, rp: RelPattern, k: string): string {
    NameOn(t, rp.variable, TypesOn(t, rp.types, StarOn(rp, PropertiesOn(t, rp.properties, k))))
  }

  function BracketOn(t: Tables, rp: RelPattern, k: string): string {
    if Bracketed(rp) then "[" + DetailOn(t, rp, "]" + k) else k
  }

  function RelOn(t: Tables, rp: RelPattern, k: string): string {
    match rp.direction
    case Outgoing => "-" + BracketOn(t, rp, "->" + k)
    case Incoming => "<-" + BracketOn(t, rp, "-" + k)
    case Both => "-" + BracketOn(t, rp, "-" + k)
  }

  function ElementOn(t: Tables, el: Element, k: string): string {
    match el
    case NodeEl(n) => NodeOn(t, n, k)
    case RelEl(r) => RelOn(t, r, k)
  }

  function ElementsOn(t: Tables, es: seq<Element>, k: string): string {
    if es == [] then k else ElementOn(t, es[0], ElementsOn(t, es[1..], k))
  }

  function PathOn(t: Tables, p: Path, k: string): string {
    if p.variable.Some? then
      Spelling.Identifier(t, p.variable.value) + (" " + ("=" + (" " + ElementsOn(t, p.elements, k))))
    else ElementsOn(t, p.elements, k)
  }

  lemma NameOnIs(t: Tables, x: Option<string>, k: string)
    ensures NameOn(t, x, k) == NameText(t, x) + k
  {
    assert "" + k == k;
  }

  lemma {:induction false} LabelsOnIs(t: Tables, labels: seq<string>, k: string)
    ensures LabelsOn(t, labels, k) == LabelsText(t, labels) + k
  {
    if labels == [] {
      assert "" + k == k;
    } else {
      LabelsOnIs(t, labels[1..], k);
      Four(":", Spelling.Identifier(t, labels[0]), LabelsText(t, labels[1..]), k);
    }
  }

  lemma {:induction false} JoinedOnIs(t: Tables, types: seq<string>, k: string)
    requires types != []
    ensures Spelling.Identifier(t, types[0]) + MoreTypesOn(t, types[1..], k) == Joined(t, types) + k
  {
    var first := Spelling.Identifier(t, types[0]);
    if |types| == 1 {
      assert first + "" == first;
    } else {
      JoinedOnIs(t, types[1..], k);
      ConcatAssoc("|", Joined(t, types[1..]), k);
      ConcatAssoc(first, "|" + Joined(t, types[1..]), k);
    }
  }

  lemma TypesOnIs(t: Tables, types: seq<string>, k: string)
    ensures TypesOn(t, types, k) == TypesText(t, types) + k
  {
    if types == [] {
      assert "" + k == k;
    } else {
      JoinedOnIs(t, types, k);
      ConcatAssoc(":", Joined(t, types), k);
    }
  }

  lemma EntryOnIs(t: Tables, key: string, e: Expr, more: string, k: string)
    ensures key + (":" + (" " + TextOn(t, e, more + k))) == key + ": " + Text(t, e) + more + k
  {
    TextOnIs(t, e, more + k);
    assert ":" + (" " + (Text(t, e) + (more + k))) == ": " + (Text(t, e) + (more + k));
    Four(key, ": ", Text(t, e), more + k);
    ConcatAssoc(key + ": " + Text(t, e), more, k);
  }

  lemma {:induction false} EntriesOnIs(t: Tables, es: Entries, k: string)
    ensures EntriesOn(t, es, k) == EntriesText(t, es) + k
  {
    if es == [] {
      assert "" + k == k;
    } else if |es| == 1 {
      assert "" + k == k;
      EntryOnIs(t, es[0].0, es[0].1, "", k);
    } else {
      EntriesOnIs(t, es[1..], k);
      var rest := EntriesText(t, es[1..]);
      assert "," + (" " + (rest + k)) == ", " + rest + k;
      EntryOnIs(t, es[0].0, es[0].1, ", " + rest, k);
    }
  }

  lemma PropertiesOnIs(t: Tables, p: Option<Entries>, k: string)
    ensures PropertiesOn(t, p, k) == PropertiesText(t, p) + k
  {
    if p.Some? {
      EntriesOnIs(t, p.value, "}" + k);
      Four("{", EntriesText(t, p.value), "}", k);
    } else {
      assert "" + k == k;
    }
  }

  lemma NodeOnIs(t: Tables, n: NodePattern, k: string)
    ensures NodeOn(t, n, k) == NodeText(t, n) + k
  {
    var a, b, c := NameText(t, n.variable), LabelsText(t, n.labels), PropertiesText(t, n.properties);
    PropertiesOnIs(t, n.properties, ")" + k);
    LabelsOnIs(t, n.labels, c + (")" + k));
    NameOnIs(t, n.variable, b + (c + (")" + k)));
    Four("(", a, b, c + (")" + k));
    ConcatAssoc("(" + a + b, c, ")" + k);
    ConcatAssoc("(" + a + b + c, ")", k);
  }

  lemma BoundsOnIs(rp: RelPattern, k: string)
    ensures StarOn(rp, k) == (if rp.variableLength then "*" + BoundsText(rp) else "") + k
  {
    if rp.variableLength {
      ConcatAssoc("*", BoundsText(rp), k);
      if rp.minHops.Some? && rp.maxHops.Some? && rp.minHops != rp.maxHops {
        Four(Digits(rp.minHops.value), "..", Digits(rp.maxHops.value), k);
      } else if rp.minHops.Some? && rp.maxHops.None? {
        ConcatAssoc(Digits(rp.minHops.value), "..", k);
      } else if rp.minHops.None? && rp.maxHops.Some? {
        ConcatAssoc("..", Digits(rp.maxHops.value), k);
      } else if rp.minHops.None? {
        assert "" + k == k;
      }
    } else {
      assert "" + k == k;
    }
  }

  lemma DetailOnIs(t: Tables, rp: RelPattern, k: string)
    ensures DetailOn(t, rp, k) == DetailText(t, rp) + k
  {
    var a, b := NameText(t, rp.variable), TypesText(t, rp.types);
    var c, e := if rp.variableLength then "*" + BoundsText(rp) else "", PropertiesText(t, rp.properties);
    PropertiesOnIs(t, rp.properties, k);
    BoundsOnIs(rp, e + k);
    TypesOnIs(t, rp.types, c + (e + k));
    NameOnIs(t, rp.variable, b + (c + (e + k)));
    Four(a, b, c, e + k);
    ConcatAssoc(a + b + c, e, k);
  }

  lemma BracketOnIs(t: Tables, rp: RelPattern, k: string)
    ensures BracketOn(t, rp, k) == (if Bracketed(rp) then "[" + DetailText(t, rp) + "]" else "") + k
  {
    if Bracketed(rp) {
      DetailOnIs(t, rp, "]" + k);
      Four("[", DetailText(t, rp), "]", k);
    } else {
      assert "" + k == k;
    }
  }

  lemma RelOnIs(t: Tables, rp: RelPattern, k: string)
    ensures RelOn(t, rp, k) == RelText(t, rp) + k
  {
    var b := if Bracketed(rp) then "[" + DetailText(t, rp) + "]" else "";
    var head := if rp.direction.Incoming? then "<-" else "-";
    var tip := if rp.direction.Outgoing? then "->" else "-";
    BracketOnIs(t, rp, tip + k);
    Four(head, b, tip, k);
  }

  lemma {:induction false} ElementsOnIs(t: Tables, es: seq<Element>, k: string)
    ensures ElementsOn(t, es, k) == ElementsText(t, es) + k
  {
    if es == [] {
      assert "" + k == k;
    } else {
      var rest := ElementsText(t, es[1..]);
      ElementsOnIs(t, es[1..], k);
      match es[0] {
        case NodeEl(n) => NodeOnIs(t, n, rest + k);
        case RelEl(r) => RelOnIs(t, r, rest + k);
      }
      ConcatAssoc(ElementText(t, es[0]), rest, k);
    }
  }

  lemma PathOnIs(t: Tables, p: Path, k: string)
    ensures PathOn(t, p, k) == PathText(t, p) + k
  {
    var body := ElementsText(t, p.elements);
    ElementsOnIs(t, p.elements, k);
    if p.variable.Some? {
      var x := Spelling.Identifier(t, p.variable.value);
      assert " " + ("=" + (" " + (body + k))) == " = " + (body + k);
      ConcatAssoc(x, " = ", body + k);
      ConcatAssoc(x + " = ", body, k);
    } else {
      assert "" + body == body;
    }
  }

  // ---- tokens ------------------------------------------------------------------------------------

  lemma Ends(t: Tables, k: string)
    ensures Apart(t, ":" + k) && Apart(t, "|" + k) && Apart(t, "{" + k) && Apart(t, "}" + k) && Apart(t, "*" + k)
    ensures Apart(t, ")" + k) && Apart(t, "]" + k) && Apart(t, " " + k) && Apart(t, ".." + k) && Apart(t, "," + k)
  {
    Closers(t, k);
  }

  lemma {:induction false} LexLabels(t: Tables, rd: Reading, labels: seq<string>, k: string, ks: seq<Token>)
    requires Faithful(t, rd) && rd(k, ks) && Apart(t, k)
    ensures rd(LabelsOn(t, labels, k), LabelToks(t, labels, ks)) && Apart(t, LabelsOn(t, labels, k))
  {
    if labels != [] {
      var u, us := LabelsOn(t, labels[1..], k), LabelToks(t, labels[1..], ks);
      LexLabels(t, rd, labels[1..], k, ks);
      ReadsKey(t, rd, labels[0], u, us);
      ReadsSym(t, rd, ':', Spelling.Identifier(t, labels[0]) + u, [KeyToken(t, labels[0])] + us);
      Ends(t, Spelling.Identifier(t, labels[0]) + u);
    }
  }

  lemma {:induction false} LexMoreTypes(t: Tables, rd: Reading, types: seq<string>, k: string, ks: seq<Token>)
    requires Faithful(t, rd) && rd(k, ks) && Apart(t, k)
    ensures rd(MoreTypesOn(t, types, k), MoreTypeToks(t, types, ks)) && Apart(t, MoreTypesOn(t, types, k))
  {
    if types != [] {
      var u, us := MoreTypesOn(t, types[1..], k), MoreTypeToks(t, types[1..], ks);
      LexMoreTypes(t, rd, types[1..], k, ks);
      ReadsKey(t, rd, types[0], u, us);
      ReadsSym(t, rd, '|', Spelling.Identifier(t, types[0]) + u, [KeyToken(t, types[0])] + us);
      Ends(t, Spelling.Identifier(t, types[0]) + u);
    }
  }

  lemma LexTypes(t: Tables, rd: Reading, types: seq<string>, k: string, ks: seq<Token>)
    requires Faithful(t, rd) && rd(k, ks) && Apart(t, k)
    ensures rd(TypesOn(t, types, k), TypeToks(t, types, ks)) && Apart(t, TypesOn(t, types, k))
  {
    if types != [] {
      var u, us := MoreTypesOn(t, types[1..], k), MoreTypeToks(t, types[1..], ks);
      LexMoreTypes(t, rd, types[1..], k, ks);
      ReadsKey(t, rd, types[0], u, us);
      ReadsSym(t, rd, ':', Spelling.Identifier(t, types[0]) + u, [KeyToken(t, types[0])] + us);
      Ends(t, Spelling.Identifier(t, types[0]) + u);
    }
  }

  lemma LexName(t: Tables, rd: Reading, x: Option<string>, k: string, ks: seq<Token>)
    requires Faithful(t, rd) && NamesOk(t, x) && rd(k, ks) && Apart(t, k)
    ensures rd(NameOn(t, x, k), NameToks(x, ks))
  {
    if x.Some? {
      IdentifierRoundTrip(t, x.value, k);
      ReadsTok(t, rd, Spelling.Identifier(t, x.value) + k, Ident(x.value), k, ks);
    }
  }

  /** One entry: a plain key, a colon, a space and a value. */
  lemma LexEntry(t: Tables, rd: Reading, key: string, e: Expr, k: string, ks: seq<Token>)
    requires Faithful(t, rd) && Vocabulary(t) && PlainName(t, key) && Leaves(t, e) && rd(k, ks) && Apart(t, k)
    ensures rd(key + (":" + (" " + TextOn(t, e, k))), [KeyToken(t, key)] + ([Sym(Colon)] + Toks(t, e, ks)))
  {
    var u, us := TextOn(t, e, k), Toks(t, e, ks);
    LexText(t, rd, e, k, ks);
    ReadsSpace(t, rd, u, us);
    ReadsSym(t, rd, ':', " " + u, us);
    ReadsWord(t, rd, key, ":" + (" " + u), [Sym(Colon)] + us);
  }

  lemma {:induction false} LexEntries(t: Tables, rd: Reading, es: Entries, d: nat, k: string, ks: seq<Token>)
    requires Faithful(t, rd) && Vocabulary(t) && EntriesOk(t, es, d) && rd(k, ks) && Apart(t, k)
    ensures rd(EntriesOn(t, es, k), EntryToks(t, es, ks))
  {
    if |es| == 1 {
      LexEntry(t, rd, es[0].0, es[0].1, k, ks);
    } else if es != [] {
      var u, us := EntriesOn(t, es[1..], k), EntryToks(t, es[1..], ks);
      LexEntries(t, rd, es[1..], d, k, ks);
      ReadsSpace(t, rd, u, us);
      ReadsSym(t, rd, ',', " " + u, us);
      Ends(t, " " + u);
      LexEntry(t, rd, es[0].0, es[0].1, "," + (" " + u), [Sym(Comma)] + us);
    }
  }

  lemma LexProperties(t: Tables, rd: Reading, p: Option<Entries>, d: nat, k: string, ks: seq<Token>)
    requires Faithful(t, rd) && Vocabulary(t) && EntriesOk(t, EntriesOf(p), d) && rd(k, ks) && Apart(t, k)
    ensures rd(PropertiesOn(t, p, k), PropertyToks(t, p, ks)) && Apart(t, PropertiesOn(t, p, k))
  {
    if p.Some? {
      Ends(t, k);
      ReadsSym(t, rd, '}', k, ks);
      LexEntries(t, rd, p.value, d, "}" + k, [Sym(RBrace)] + ks);
      ReadsSym(t, rd, '{', EntriesOn(t, p.value, "}" + k), EntryToks(t, p.value, [Sym(RBrace)] + ks));
      Ends(t, EntriesOn(t, p.value, "}" + k));
    }
  }

  lemma LexNode(t: Tables, rd: Reading, n: NodePattern, d: nat, k: string, ks: seq<Token>)
    requires Faithful(t, rd) && Vocabulary(t) && NodeOk(t, n, d) && rd(k, ks)
    ensures rd(NodeOn(t, n, k), NodeToks(t, n, ks)) && NodeOn(t, n, k)[0] == '('
  {
    Ends(t, k);
    ReadsSym(t, rd, ')', k, ks);
    LexProperties(t, rd, n.properties, d, ")" + k, [Sym(RParen)] + ks);
    var u, us := PropertiesOn(t, n.properties, ")" + k), PropertyToks(t, n.properties, [Sym(RParen)] + ks);
    LexLabels(t, rd, n.labels, u, us);
    LexName(t, rd, n.variable, LabelsOn(t, n.labels, u), LabelToks(t, n.labels, us));
    ReadsSym(t, rd, '(', NameOn(t, n.variable, LabelsOn(t, n.labels, u)),
        NameToks(n.variable, LabelToks(t, n.labels, us)));
  }

  lemma LexRange(t: Tables, rd: Reading, min: nat, max: nat, k: string, ks: seq<Token>)
    requires Faithful(t, rd) && rd(k, ks) && Apart(t, k)
    ensures rd(Digits(min) + (".." + (Digits(max) + k)), [Count(min)] + ([Sym(DotDot)] + ([Count(max)] + ks)))
  {
    ReadsInteger(t, rd, max, k, ks);
    ReadsDots(t, rd, Digits(max) + k, [Count(max)] + ks);
    Ends(t, Digits(max) + k);
    ReadsInteger(t, rd, min, ".." + (Digits(max) + k), [Sym(DotDot)] + ([Count(max)] + ks));
  }

  lemma LexBounds(t: Tables, rd: Reading, rp: RelPattern, k: string, ks: seq<Token>)
    requires Faithful(t, rd) && rd(k, ks) && Apart(t, k)
    ensures rd(BoundsOn(rp, k), BoundToks(rp, ks))
  {
    if rp.minHops.Some? && rp.maxHops.Some? {
      if rp.minHops == rp.maxHops { ReadsInteger(t, rd, rp.minHops.value, k, ks); }
      else { LexRange(t, rd, rp.minHops.value, rp.maxHops.value, k, ks); }
    } else if rp.minHops.Some? {
      ReadsDots(t, rd, k, ks);
      Ends(t, k);
      ReadsInteger(t, rd, rp.minHops.value, ".." + k, [Sym(DotDot)] + ks);
    } else if rp.maxHops.Some? {
      ReadsInteger(t, rd, rp.maxHops.value, k, ks);
      ReadsDots(t, rd, Digits(rp.maxHops.value) + k, [Count(rp.maxHops.value)] + ks);
    }
  }

  lemma LexStar(t: Tables, rd: Reading, rp: RelPattern, k: string, ks: seq<Token>)
    requires Faithful(t, rd) && rd(k, ks) && Apart(t, k)
    ensures rd(StarOn(rp, k), if rp.variableLength then [Sym(Asterisk)] + BoundToks(rp, ks) else ks)
            && Apart(t, StarOn(rp, k))
  {
    if rp.variableLength {
      LexBounds(t, rd, rp, k, ks);
      ReadsSym(t, rd, '*', BoundsOn(rp, k), BoundToks(rp, ks));
      Ends(t, BoundsOn(rp, k));
    }
  }

  lemma LexDetail(t: Tables, rd: Reading, rp: RelPattern, d: nat, k: string, ks: seq<Token>)
    requires Faithful(t, rd) && Vocabulary(t) && RelOk(t, rp, d) && rd(k, ks) && Apart(t, k)
    ensures rd(DetailOn(t, rp, k), DetailToks(t, rp, ks))
  {
    LexProperties(t, rd, rp.properties, d, k, ks);
    var u, us := PropertiesOn(t, rp.properties, k), PropertyToks(t, rp.properties, ks);
    LexStar(t, rd, rp, u, us);
    var v, vs := StarOn(rp, u), if rp.variableLength then [Sym(Asterisk)] + BoundToks(rp, us) else us;
    LexTypes(t, rd, rp.types, v, vs);
    LexName(t, rd, rp.variable, TypesOn(t, rp.types, v), TypeToks(t, rp.types, vs));
  }

  lemma LexBracket(t: Tables, rd: Reading, rp: RelPattern, d: nat, k: string, ks: seq<Token>)
    requires Faithful(t, rd) && Vocabulary(t) && RelOk(t, rp, d) && rd(k, ks) && k != "" && k[0] == '-'
    ensures rd(BracketOn(t, rp, k), BracketToks(t, rp, ks))
    ensures BracketOn(t, rp, k) != "" && BracketOn(t, rp, k)[0] != '>'
  {
    if Bracketed(rp) {
      ReadsSym(t, rd, ']', k, ks);
      Ends(t, k);
      LexDetail(t, rd, rp, d, "]" + k, [Sym(RBracket)] + ks);
      ReadsSym(t, rd, '[', DetailOn(t, rp, "]" + k), DetailToks(t, rp, [Sym(RBracket)] + ks));
    }
  }

  /** `->` and `<-`, whatever follows. */
  lemma ReadsArrow(t: Tables, rd: Reading, right: bool, k: string, ks: seq<Token>)
    requires Faithful(t, rd) && rd(k, ks)
    ensures rd((if right then "->" else "<-") + k, [Sym(if right then ArrowRight else ArrowLeft)] + ks)
  {
    var s := (if right then "->" else "<-") + k;
    assert SkipBlanks(s) == Some(s);
    assert s[2..] == k && s[1] == (if right then '>' else '-');
    assert NextToken(t, s) == Tok(Sym(if right then ArrowRight else ArrowLeft), k);
    ReadsTok(t, rd, s, Sym(if right then ArrowRight else ArrowLeft), k, ks);
  }

  /** A relationship, followed by something that does not begin with `>`. */
  lemma LexRel(t: Tables, rd: Reading, rp: RelPattern, d: nat, k: string, ks: seq<Token>)
    requires Faithful(t, rd) && Vocabulary(t) && RelOk(t, rp, d) && rd(k, ks) && k != "" && k[0] == '('
    ensures rd(RelOn(t, rp, k), RelToks(t, rp, ks))
  {
    if rp.direction.Outgoing? { LexOutgoing(t, rd, rp, d, k, ks); } else { LexOther(t, rd, rp, d, k, ks); }
  }

  lemma LexOutgoing(t: Tables, rd: Reading, rp: RelPattern, d: nat, k: string, ks: seq<Token>)
    requires Faithful(t, rd) && Vocabulary(t) && RelOk(t, rp, d) && rd(k, ks)
    ensures rd("-" + BracketOn(t, rp, "->" + k), [Sym(Minus)] + BracketToks(t, rp, [Sym(ArrowRight)] + ks))
  {
    ReadsArrow(t, rd, true, k, ks);
    LexBracket(t, rd, rp, d, "->" + k, [Sym(ArrowRight)] + ks);
    BeforeBracket(t, rd, BracketOn(t, rp, "->" + k), BracketToks(t, rp, [Sym(ArrowRight)] + ks));
  }

  lemma LexOther(t: Tables, rd: Reading, rp: RelPattern, d: nat, k: string, ks: seq<Token>)
    requires Faithful(t, rd) && Vocabulary(t) && RelOk(t, rp, d) && rd(k, ks) && k != "" && k[0] == '('
    ensures var u, us := BracketOn(t, rp, "-" + k), BracketToks(t, rp, [Sym(Minus)] + ks);
            rd("<-" + u, [Sym(ArrowLeft)] + us) && rd("-" + u, [Sym(Minus)] + us)
  {
    ReadsSym(t, rd, '-', k, ks);
    LexBracket(t, rd, rp, d, "-" + k, [Sym(Minus)] + ks);
    BeforeBracket(t, rd, BracketOn(t, rp, "-" + k), BracketToks(t, rp, [Sym(Minus)] + ks));
  }

  lemma BeforeBracket(t: Tables, rd: Reading, u: string, us: seq<Token>)
    requires Faithful(t, rd) && Vocabulary(t) && rd(u, us) && u != "" && u[0] != '>'
    ensures rd("<-" + u, [Sym(ArrowLeft)] + us) && rd("-" + u, [Sym(Minus)] + us)
  {
    ReadsArrow(t, rd, false, u, us);
    ReadsSym(t, rd, '-', u, us);
  }

  lemma {:induction false} LexSteps(t: Tables, rd: Reading, es: seq<Element>, d: nat, k: string, ks: seq<Token>)
    requires Faithful(t, rd) && Vocabulary(t) && StepsOk(t, es, d) && rd(k, ks)
    ensures rd(ElementsOn(t, es, k), ElementsToks(t, es, ks))
    decreases |es|
  {
    if es != [] {
      var u, us := ElementsOn(t, es[2..], k), ElementsToks(t, es[2..], ks);
      assert es[1..][1..] == es[2..];
      LexSteps(t, rd, es[2..], d, k, ks);
      LexNode(t, rd, es[1].node, d, u, us);
      LexRel(t, rd, es[0].rel, d, NodeOn(t, es[1].node, u), NodeToks(t, es[1].node, us));
      R.PairToks(t, es, ks);
    }
  }

  lemma LexElements(t: Tables, rd: Reading, es: seq<Element>, d: nat, k: string, ks: seq<Token>)
    requires Faithful(t, rd) && Vocabulary(t) && rd(k, ks)
    requires es != [] && es[0].NodeEl? && NodeOk(t, es[0].node, d) && StepsOk(t, es[1..], d)
    ensures rd(ElementsOn(t, es, k), ElementsToks(t, es, ks))
  {
    LexSteps(t, rd, es[1..], d, k, ks);
    LexNode(t, rd, es[0].node, d, ElementsOn(t, es[1..], k), ElementsToks(t, es[1..], ks));
  }

  lemma ReadsEquals(t: Tables, rd: Reading, u: string, us: seq<Token>)
    requires Faithful(t, rd) && rd(u, us)
    ensures rd(" " + ("=" + (" " + u)), [Sym(Equals)] + us)
  {
    ReadsSpace(t, rd, u, us);
    assert Spells(t, "=", Equals);
    ReadsSpelled(t, rd, "=", Equals, u, us);
    ReadsSpace(t, rd, "=" + (" " + u), [Sym(Equals)] + us);
  }

  lemma LexPath(t: Tables, rd: Reading, p: Path, d: nat, k: string, ks: seq<Token>)
    requires Faithful(t, rd) && Vocabulary(t) && PathOk(t, p, d) && rd(k, ks)
    ensures rd(PathOn(t, p, k), PathToks(t, p, ks))
  {
    LexElements(t, rd, p.elements, d, k, ks);
    if p.variable.Some? {
      var u, us := ElementsOn(t, p.elements, k), ElementsToks(t, p.elements, ks);
      ReadsEquals(t, rd, u, us);
      Ends(t, "=" + (" " + u));
      LexName(t, rd, p.variable, " " + ("=" + (" " + u)), [Sym(Equals)] + us);
    }
  }

  /** The text of `p`, followed by `k`, is read as the tokens of `p` followed by those of `k`. */
  lemma PrintedPathTokens(t: Tables, p: Path, d: nat, k: string, ks: seq<Token>)
    requires Vocabulary(t) && PathOk(t, p, d) && Lex(t, k) == Some(ks)
    ensures Lex(t, PathText(t, p) + k) == Some(PathToks(t, p, ks))
  {
    var rd: Reading := (s, ts) => Lex(t, s) == Some(ts);
    LexPath(t, rd, p, d, k, ks);
    PathOnIs(t, p, k);
    assert rd(PathOn(t, p, k), PathToks(t, p, ks));
  }

  /** Printing then lexing and parsing a path pattern gives it back and stops at the follow token, exactly when
      its hop bounds are as the parser makes them. */
  lemma PrintThenParsePath(t: Tables, p: Path, k: string, ks: seq<Token>, d: nat)
    requires Vocabulary(t) && d > 0 && PathOk(t, p, d - 1)
    requires Lex(t, k) == Some(ks) && !G.RelAhead(ks)
    ensures Lex(t, PathText(t, p) + k).Some?
    ensures G.ParsePath(t, Lex(t, PathText(t, p) + k).value, d) == G.Got(p, ks) <==> AllBoundsOk(p.elements)
  {
    PrintedPathTokens(t, p, d - 1, k, ks);
    R.PathRoundTripExactly(t, p, ks, d);
  }
}
