/** What the renderer prints for a path pattern, as text and as the tokens of that text. */
module PathRender {
  import opened Prelude
  import opened Ast
  import opened Tokens
  import opened Spelling
  import opened Render

  // ---- text ----------------------------------------------------------------------------------

  function NameText(t: Tables, x: Option<string>): string {
    if x.Some? then Spelling.Identifier(t, x.value) else ""
  }

  function LabelsText(t: Tables, labels: seq<string>): string {
    if labels == [] then "" else ":" + Spelling.Identifier(t, labels[0]) + LabelsText(t, labels[1..])
  }

  function TypesText(t: Tables, types: seq<string>): string {
    if types == [] then "" else ":" + Joined(t, types)
  }

  /** `"|".join(...)`. */
  function Joined(t: Tables, names: seq<string>): string
    requires names != []
  {
    Spelling.Identifier(t, names[0]) + (if |names| == 1 then "" else "|" + Joined(t, names[1..]))
  }

  function EntriesText(t: Tables, es: Entries): string {
    if es == [] then ""
    else es[0].0 + ": " + Text(t, es[0].1) + (if |es| == 1 then "" else ", " + EntriesText(t, es[1..]))
  }

  function PropertiesText(t: Tables, p: Option<Entries>): string {
    if p.Some? then "{" + EntriesText(t, p.value) + "}" else ""
  }

  function NodeText(t: Tables, n: NodePattern): string {
    "(" + NameText(t, n.variable) + LabelsText(t, n.labels) + PropertiesText(t, n.properties) + ")"
  }

  function BoundsText(rp: RelPattern): string {
    if rp.minHops.Some? && rp.maxHops.Some? then
      if rp.minHops == rp.maxHops then Digits(rp.minHops.value)
      else Digits(rp.minHops.value) + ".." + Digits(rp.maxHops.value)
    else if rp.minHops.Some? then Digits(rp.minHops.value) + ".."
    else if rp.maxHops.Some? then ".." + Digits(rp.maxHops.value)
    else ""
  }

  function DetailText(t: Tables, rp: RelPattern): string {
    NameText(t, rp.variable) + TypesText(t, rp.types) + (if rp.variableLength then "*" + BoundsText(rp) else "")
    + PropertiesText(t, rp.properties)
  }

  predicate Bracketed(rp: RelPattern) {
    rp.variable.Some? || rp.types != [] || rp.variableLength || rp.properties.Some?
  }

  function RelText(t: Tables, rp: RelPattern): string {
    var b := if Bracketed(rp) then "[" + DetailText(t, rp) + "]" else "";
    match rp.direction
    case Outgoing => "-" + b + "->"
    case Incoming => "<-" + b + "-"
    case Both => "-" + b + "-"
  }

  function ElementText(t: Tables, el: Element): string {
    match el
    case NodeEl(n) => NodeText(t, n)
    case RelEl(r) => RelText(t, r)
  }

  function ElementsText(t: Tables, es: seq<Element>): string {
    if es == [] then "" else ElementText(t, es[0]) + ElementsText(t, es[1..])
  }

  function PathText(t: Tables, p: Path): string {
    (if p.variable.Some? then Spelling.Identifier(t, p.variable.value) + " = " else "") + ElementsText(t, p.elements)
  }

  // ---- tokens ----------------------------------------------------------------------------------

  function NameToks(x: Option<string>, k: seq<Token>): seq<Token> {
    if x.Some? then [Ident(x.value)] + k else k
  }

  function LabelToks(t: Tables, labels: seq<string>, k: seq<Token>): seq<Token> {
    if labels == [] then k else [Sym(Colon)] + ([KeyToken(t, labels[0])] + LabelToks(t, labels[1..], k))
  }

  function MoreTypeToks(t: Tables, types: seq<string>, k: seq<Token>): seq<Token> {
    if types == [] then k else [Sym(Pipe)] + ([KeyToken(t, types[0])] + MoreTypeToks(t, types[1..], k))
  }

  function TypeToks(t: Tables, types: seq<string>, k: seq<Token>): seq<Token> {
    if types == [] then k else [Sym(Colon)] + ([KeyToken(t, types[0])] + MoreTypeToks(t, types[1..], k))
  }

  function EntryToks(t: Tables, es: Entries, k: seq<Token>): seq<Token> {
    if es == [] then k
    else
      [KeyToken(t, es[0].0)] +
      ([Sym(Colon)] + Toks(t, es[0].1, if |es| == 1 then k else [Sym(Comma)] + EntryToks(t, es[1..], k)))
  }

  function PropertyToks(t: Tables, p: Option<Entries>, k: seq<Token>): seq<Token> {
    if p.Some? then [Sym(LBrace)] + EntryToks(t, p.value, [Sym(RBrace)] + k) else k
  }

  function NodeToks(t: Tables, n: NodePattern, k: seq<Token>): seq<Token> {
    [Sym(LParen)] + NameToks(n.variable, LabelToks(t, n.labels, PropertyToks(t, n.properties, [Sym(RParen)] + k)))
  }

  function Count(n: nat): Token { IntTok(Digits(n)) }

  function BoundToks(rp: RelPattern, k: seq<Token>): seq<Token> {
    if rp.minHops.Some? && rp.maxHops.Some? then
      if rp.minHops == rp.maxHops then [Count(rp.minHops.value)] + k
      else [Count(rp.minHops.value)] + ([Sym(DotDot)] + ([Count(rp.maxHops.value)] + k))
    else if rp.minHops.Some? then [Count(rp.minHops.value)] + ([Sym(DotDot)] + k)
    else if rp.maxHops.Some? then [Sym(DotDot)] + ([Count(rp.maxHops.value)] + k)
    else k
  }

  function DetailToks(t: Tables, rp: RelPattern, k: seq<Token>): seq<Token> {
    var end := PropertyToks(t, rp.properties, k);
    var hops := if rp.variableLength then [Sym(Asterisk)] + BoundToks(rp, end) else end;
    NameToks(rp.variable, TypeToks(t, rp.types, hops))
  }

  function BracketToks(t: Tables, rp: RelPattern, k: seq<Token>): seq<Token> {
    if Bracketed(rp) then [Sym(LBracket)] + DetailToks(t, rp, [Sym(RBracket)] + k) else k
  }

  function RelToks(t: Tables, rp: RelPattern, k: seq<Token>): seq<Token> {
    match rp.direction
    case Outgoing => [Sym(Minus)] + BracketToks(t, rp, [Sym(ArrowRight)] + k)
    case Incoming => [Sym(ArrowLeft)] + BracketToks(t, rp, [Sym(Minus)] + k)
    case Both => [Sym(Minus)] + BracketToks(t, rp, [Sym(Minus)] + k)
  }

  function ElementToks(t: Tables, el: Element, k: seq<Token>): seq<Token> {
    match el
    case NodeEl(n) => NodeToks(t, n, k)
    case RelEl(r) => RelToks(t, r, k)
  }

  function ElementsToks(t: Tables, es: seq<Element>, k: seq<Token>): seq<Token> {
    if es == [] then k else ElementToks(t, es[0], ElementsToks(t, es[1..], k))
  }

  function PathToks(t: Tables, p: Path, k: seq<Token>): seq<Token> {
    if p.variable.Some? then [Ident(p.variable.value)] + ([Sym(Equals)] + ElementsToks(t, p.elements, k))
    else ElementsToks(t, p.elements, k)
  }

  // ---- which patterns print faithfully ------------------------------------------------------------

  predicate NamesOk(t: Tables, x: Option<string>) {
    x.Some? ==> !(PlainName(t, x.value) && IsKeyword(t, x.value))
  }

  /** Keys that are plain words (they are printed as they are), and values that need no parentheses. */
  predicate EntriesOk(t: Tables, es: Entries, d: nat) {
    forall i :: 0 <= i < |es| ==>
      PlainName(t, es[i].0) && Levels(0, es[i].1) && Leaves(t, es[i].1) && Nest(es[i].1) < d
  }

  predicate NodeOk(t: Tables, n: NodePattern, d: nat) {
    NamesOk(t, n.variable) && n.where == None && EntriesOk(t, EntriesOf(n.properties), d)
  }

  /** Bounds as the parser makes them: a variable-length hop always has a lower bound. */
  predicate BoundsOk(rp: RelPattern) {
    if rp.variableLength then rp.minHops.Some? else rp.minHops == None && rp.maxHops == None
  }

  predicate RelOk(t: Tables, rp: RelPattern, d: nat) {
    NamesOk(t, rp.variable) && rp.where == None && EntriesOk(t, EntriesOf(rp.properties), d)
  }

  predicate StepsOk(t: Tables, es: seq<Element>, d: nat) {
    es == [] ||
    (|es| >= 2 && es[0].RelEl? && RelOk(t, es[0].rel, d) && es[1].NodeEl? && NodeOk(t, es[1].node, d)
        && StepsOk(t, es[2..], d))
  }

  predicate PathOk(t: Tables, p: Path, d: nat) {
    && NamesOk(t, p.variable)
    && p.elements != [] && p.elements[0].NodeEl? && NodeOk(t, p.elements[0].node, d) && StepsOk(t, p.elements[1..], d)
  }

  predicate AllBoundsOk(es: seq<Element>) {
    forall i :: 0 <= i < |es| && es[i].RelEl? ==> BoundsOk(es[i].rel)
  }
}
