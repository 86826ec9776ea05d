/** Lowering surface Cypher to the core: a bottom-up pass over a generic tree. */
module Lowering {
  import opened Prelude
  import opened KeyMatching
  import A = Ast
  import E = Evaluation

  // ---- trees -----------------------------------------------------------------------------------

  /** The kinds of node, one for each class the pass or an encoded clause mentions. */
  datatype Kind =
    | Query | Match | With | Return | Unwind | For | Filter | FilterItem | Let | GroupBy
    | NodePattern | RelPattern | Pattern | PathPattern | PatternComprehension | CallSubquery
    | Where | Star | Alias | Identifier | FunctionCall | Binary(op: A.BinOp)
    | NullLit | BooleanLit | IntegerLit | FloatLit | StringLit | Parameter | Property | ListLit | MapLit
    | Not | Neg | IsNull | ListSubscript | ListSlice | Coalesce | LabelExpression
    | Search | LoadCsv | AdminStatement | WhenQuery
    | Other(name: string)

  /** A node and its arguments by name; an argument that is not listed is `None`. */
  datatype Tree = Tree(kind: Kind, args: seq<Field>)

  datatype Arg = Missing | Atom(scalar: Scalar) | One(node: Tree) | Many(items: seq<Entry>)
  datatype Scalar = Text(text: string) | Number(number: int) | Decimal(decimal: real) | Flag(flag: bool)

  /** The walk does not look inside the strings and tuples of a list. */
  datatype Entry = Child(node: Tree) | Word(text: string) | Tuple(parts: seq<Arg>)
  datatype Field = Field(key: string, value: Arg)

  function Get(args: seq<Field>, key: string): Arg {
    if args == [] then Missing else if args[0].key == key then args[0].value else Get(args[1..], key)
  }

  function Set(args: seq<Field>, key: string, a: Arg): seq<Field> {
    if args == [] then if a == Missing then [] else [Field(key, a)]
    else if args[0].key == key then [Field(key, a)] + args[1..]
    else [args[0]] + Set(args[1..], key, a)
  }

  function TextOf(a: Arg): Option<string> {
    if a.Atom? && a.scalar.Text? then Some(a.scalar.text) else None
  }

  function ItemsOf(a: Arg): seq<Entry> {
    if a.Many? then a.items else []
  }

  // ---- WHERE predicates --------------------------------------------------------------------------

  /** `_where_pred`. */
  function PredOf(w: Arg): Option<Tree> {
    if w.One? then
      if w.node.kind.Where? then
        if Get(w.node.args, "this").One? then Some(Get(w.node.args, "this").node) else None
      else Some(w.node)
    else None
  }

  function Conj(p: Tree, q: Tree): Tree {
    Tree(Binary(A.AndOp), [Field("this", One(p)), Field("expression", One(q))])
  }

  function ConjAll(p: Tree, preds: seq<Tree>): Tree
    decreases |preds|
  {
    if preds == [] then p else ConjAll(Conj(p, preds[0]), preds[1..])
  }

  /** `_where_of`: nothing, or the conjunction of the predicates from left to right. */
  function WhereOf(preds: seq<Tree>): Arg {
    if preds == [] then Missing else One(Tree(Where, [Field("this", One(ConjAll(preds[0], preds[1..])))]))
  }

  function OptSeq(o: Option<Tree>): seq<Tree> {
    if o.Some? then [o.value] else []
  }

  // ---- inline predicates ---------------------------------------------------------------------------

  predicate IsElement(k: Kind) { k.NodePattern? || k.RelPattern? }

  predicate IsContainer(k: Kind) { k.Pattern? || k.PathPattern? }

  /** The predicates of a pattern's own elements, in order, and the pattern without them. */
  function Hoist(t: Tree): (seq<Tree>, Tree)
    decreases t
  {
    if IsElement(t.kind) then (OptSeq(PredOf(Get(t.args, "where"))), t.(args := Set(t.args, "where", Missing)))
    else if IsContainer(t.kind) then
      var (preds, args) := HoistArgs(t.args);
      (preds, t.(args := args))
    else ([], t)
  }

  function HoistArgs(args: seq<Field>): (seq<Tree>, seq<Field>)
    decreases args
  {
    if args == [] then ([], [])
    else
      var (p, a) := HoistArg(args[0].value);
      var (ps, rest) := HoistArgs(args[1..]);
      (p + ps, [Field(args[0].key, a)] + rest)
  }

  function HoistArg(a: Arg): (seq<Tree>, Arg)
    decreases a
  {
    match a
    case One(n) => var (p, n') := Hoist(n); (p, One(n'))
    case Many(items) => var (p, items') := HoistItems(items); (p, Many(items'))
    case _ => ([], a)
  }

  function HoistItems(items: seq<Entry>): (seq<Tree>, seq<Entry>)
    decreases items
  {
    if items == [] then ([], [])
    else
      var (ps, rest) := HoistItems(items[1..]);
      match items[0]
      case Child(n) => assert n < items[0]; var (p, n') := Hoist(n); (p + ps, [Child(n')] + rest)
      case _ => (ps, [items[0]] + rest)
  }

  /** MATCH and pattern comprehensions take over the inline predicates of their pattern. */
  function HoistInto(t: Tree): Tree {
    var (preds, pattern) := HoistArg(Get(t.args, "pattern"));
    t.(args := Set(Set(t.args, "pattern", pattern), "where", WhereOf(OptSeq(PredOf(Get(t.args, "where"))) + preds)))
  }

  // ---- FILTER, LET and GROUP BY ------------------------------------------------------------------------

  function IdentifierName(t: Tree): set<string> {
    if t.kind.Identifier? then A.OptSet(TextOf(Get(t.args, "this"))) - {""} else {}
  }

  /** The identifiers visible in a tree. */
  function NamesIn(t: Tree): set<string>
    decreases t
  {
    IdentifierName(t) + NamesInArgs(t.args)
  }

  function NamesInArgs(args: seq<Field>): set<string>
    decreases args
  {
    if args == [] then {}
    else
      (match args[0].value case One(n) => NamesIn(n) case Many(items) => NamesInItems(items) case _ => {})
      + NamesInArgs(args[1..])
  }

  function NamesInItems(items: seq<Entry>): set<string>
    decreases items
  {
    if items == [] then {}
    else
      (if items[0].Child? then assert items[0].node < items[0]; NamesIn(items[0].node) else {})
      + NamesInItems(items[1..])
  }

  /** The name a FILTER item is about. */
  function ItemName(item: Tree): Option<string> {
    match Get(item.args, "variable")
    case One(n) => if n.kind.Identifier? then TextOf(Get(n.args, "this")) else None
    case _ => None
  }

  /** Each predicate must mention its own name; the first that does not fails the pass. */
  function FilterPreds(items: seq<Entry>): Option<seq<Tree>> {
    if items == [] then Some([])
    else
      match items[0]
      case Child(item) =>
        (match FilterPreds(items[1..])
         case None => None
         case Some(preds) =>
           match Get(item.args, "predicate")
           case One(p) =>
             if ItemName(item).Some? && ItemName(item).value in NamesIn(p) then Some([p] + preds) else None
           case Missing => Some(preds)
           case _ => None)
      case _ => None
  }

  function LetWith(item: Entry): Entry {
    Child(Tree(With, [Field("expressions", Many([Child(Tree(Star, [])), item])), Field("where", Missing)]))
  }

  /** `LET a = ..., b = ...` becomes one `WITH *, item` after the other. */
  function ExpandLets(clauses: seq<Entry>): Option<seq<Entry>> {
    if clauses == [] then Some([])
    else
      match ExpandLets(clauses[1..])
      case None => None
      case Some(rest) =>
        if clauses[0].Child? && clauses[0].node.kind.Let? then
          var items := ItemsOf(Get(clauses[0].node.args, "items"));
          if items == [] then None else Some(Map(LetWith, items) + rest)
        else Some([clauses[0]] + rest)
  }

  function Core(e: Tree): Tree {
    if e.kind.Alias? && Get(e.args, "this").One? then Get(e.args, "this").node else e
  }

  predicate IsAggregate(e: Tree) {
    var name := TextOf(Get(Core(e).args, "name"));
    Core(e).kind.FunctionCall? && name.Some? && E.Lower(name.value) in A.AGGREGATES
  }

  function GroupingOf(e: Tree): Grouping<Tree> {
    if e.kind.Alias? then
      Grouping(Core(e), if Get(e.args, "alias").One? then Some(Get(e.args, "alias").node) else None)
    else Grouping(e, None)
  }

  function Groupings(items: seq<Entry>): seq<Grouping<Tree>> {
    if items == [] then []
    else
      (if items[0].Child? && !IsAggregate(items[0].node) then [GroupingOf(items[0].node)] else [])
      + Groupings(items[1..])
  }

  predicate AnyItem(p: Tree -> bool, items: seq<Entry>) {
    exists i :: 0 <= i < |items| && items[i].Child? && p(items[i].node)
  }

  function Nodes(items: seq<Entry>): Option<seq<Tree>> {
    if items == [] then Some([])
    else
      match Nodes(items[1..])
      case None => None
      case Some(ns) => if items[0].Child? then Some([items[0].node] + ns) else None
  }

  /** `_group_by_matches_projection`. */
  predicate KeysMatchProjection(t: Tree, keys: seq<Entry>) {
    var items := ItemsOf(Get(t.args, "expressions"));
    && !AnyItem((e: Tree) => e.kind.Star?, items) && AnyItem((e: Tree) => IsAggregate(e), items)
    && Nodes(keys).Some? && KeysMatch(Nodes(keys).value, Groupings(items))
  }

  /** Clears GROUP BY when core grouping already matches it, and fails otherwise. */
  function LowerProjection(t: Tree): Option<Tree> {
    match Get(t.args, "group_by")
    case Missing => Some(t)
    case One(g) =>
      var keys := if g.kind.GroupBy? then ItemsOf(Get(g.args, "expressions")) else [Child(g)];
      if KeysMatchProjection(t, keys) then Some(t.(args := Set(t.args, "group_by", Missing))) else None
    case _ => None
  }

  // ---- the pass ------------------------------------------------------------------------------------------

  /** `_lower_node`, on a node whose arguments are already lowered. */
  function LowerNode(t: Tree): Option<Tree> {
    match t.kind
    case For =>
      Some(Tree(Unwind, [Field("expression", Get(t.args, "expression")), Field("alias", Get(t.args, "alias"))]))
    case Query =>
      (match ExpandLets(ItemsOf(Get(t.args, "clauses")))
       case None => None
       case Some(cs) => Some(t.(args := Set(t.args, "clauses", Many(cs)))))
    case Filter =>
      (match FilterPreds(ItemsOf(Get(t.args, "items")))
       case None => None
       case Some(preds) =>
         var all := Field("expressions", Many([Child(Tree(Star, []))]));
         Some(Tree(With, [all, Field("where", WhereOf(preds))])))
    case Match => Some(HoistInto(t))
    case PatternComprehension => Some(HoistInto(t))
    case RelPattern =>
      if Get(t.args, "memgraph_quantifier") == Atom(Text("bfs")) then
        Some(t.(args := Set(Set(Set(t.args, "memgraph_quantifier", Missing), "memgraph_weight_expr", Missing),
                            "memgraph_total_weight", Missing)))
      else Some(t)
    case CallSubquery => Some(t.(args := Set(Set(t.args, "in_transactions", Missing), "transaction_rows", Missing)))
    case With => LowerProjection(t)
    case Return => LowerProjection(t)
    case _ => Some(t)
  }

  /** `transform`: arguments first, then the node. */
  function Lower(t: Tree): Option<Tree>
    decreases t
  {
    match LowerArgs(t.args)
    case None => None
    case Some(args) => LowerNode(Tree(t.kind, args))
  }

  function LowerArgs(args: seq<Field>): Option<seq<Field>>
    decreases args
  {
    if args == [] then Some([])
    else
      match LowerArg(args[0].value)
      case None => None
      case Some(a) =>
        match LowerArgs(args[1..])
        case None => None
        case Some(rest) => Some([Field(args[0].key, a)] + rest)
  }

  function LowerArg(a: Arg): Option<Arg>
    decreases a
  {
    match a
    case One(n) => (match Lower(n) case None => None case Some(n') => Some(One(n')))
    case Many(items) => (match LowerItems(items) case None => None case Some(items') => Some(Many(items')))
    case _ => Some(a)
  }

  function LowerItems(items: seq<Entry>): Option<seq<Entry>>
    decreases items
  {
    if items == [] then Some([])
    else
      match LowerItems(items[1..])
      case None => None
      case Some(rest) =>
        match items[0]
        case Child(n) => assert n < items[0];
            (match Lower(n) case None => None case Some(n') => Some([Child(n')] + rest))
        case _ => Some([items[0]] + rest)
  }

  // ---- what a walk sees --------------------------------------------------------------------------------

  /** `p` holds of every node the walk visits. */
  predicate Every(p: Tree -> bool, t: Tree)
    decreases t
  {
    p(t) && EveryArg(p, t.args)
  }

  predicate EveryArg(p: Tree -> bool, args: seq<Field>)
    decreases args
  {
    args == [] || (EveryIn(p, args[0].value) && EveryArg(p, args[1..]))
  }

  predicate EveryIn(p: Tree -> bool, a: Arg)
    decreases a
  {
    match a
    case One(n) => Every(p, n)
    case Many(items) => EveryItem(p, items)
    case _ => true
  }

  predicate EveryItem(p: Tree -> bool, items: seq<Entry>)
    decreases items
  {
    items == [] || ((items[0].Child? ==> assert items[0].node < items[0]; Every(p, items[0].node))
        && EveryItem(p, items[1..]))
  }

  // ---- the whole pass ------------------------------------------------------------------------------------

  /** Python's truth: a node is always true, a list when it is not empty. */
  predicate Truthy(a: Arg) {
    match a
    case Missing => false
    case Atom(Text(s)) => s != ""
    case Atom(Number(i)) => i != 0
    case Atom(Decimal(r)) => r != 0.0
    case Atom(Flag(b)) => b
    case One(_) => true
    case Many(items) => items != []
  }

  predicate VariableLength(t: Tree) {
    Truthy(Get(t.args, "variable_length")) || Get(t.args, "min_hops") != Missing || Get(t.args, "max_hops") != Missing
    || Get(t.args, "memgraph_quantifier") != Missing
  }

  /** `_reject_unsupported_surface` lets the node pass. */
  predicate Supported(t: Tree) {
    && !t.kind.Search? && !t.kind.LoadCsv? && !t.kind.AdminStatement? && !t.kind.WhenQuery?
    && (t.kind.RelPattern? ==>
          Get(t.args, "memgraph_quantifier") != Atom(Text("wShortest"))
              && !(Get(t.args, "where") != Missing && VariableLength(t)))
  }

  /** What is checked once everything is lowered: no inline predicate and no LET is left. */
  predicate NothingInline(t: Tree) {
    (IsElement(t.kind) ==> Get(t.args, "where") == Missing) && !t.kind.Let?
  }

  function LowerToCore(t: Tree): Option<Tree> {
    if !Every(Supported, t) then None
    else
      match Lower(t)
      case None => None
      case Some(c) => if Every(NothingInline, c) then Some(c) else None
  }

  // ---- the loops ------------------------------------------------------------------------------------------

  /** `_expand_let_clauses`. */
  method ExpandLetClauses(clauses: seq<Entry>) returns (out: Option<seq<Entry>>)
    ensures out == ExpandLets(clauses)
  {
    var done: seq<Entry> := [];
    assert clauses[0..] == clauses;
    AfterNone(ExpandLets(clauses));
    for i := 0 to |clauses|
      invariant After(done, ExpandLets(clauses[i..])) == ExpandLets(clauses)
    {
      assert clauses[i..][0] == clauses[i] && clauses[i..][1..] == clauses[i + 1..];
      if clauses[i].Child? && clauses[i].node.kind.Let? {
        var items := ItemsOf(Get(clauses[i].node.args, "items"));
        if items == [] {
          return None;
        }
        AfterTwice(done, Map(LetWith, items), ExpandLets(clauses[i + 1..]));
        done := done + Map(LetWith, items);
      } else {
        AfterTwice(done, [clauses[i]], ExpandLets(clauses[i + 1..]));
        done := done + [clauses[i]];
      }
    }
    assert done + [] == done;
    return Some(done);
  }

  /** `_filter_predicates`. */
  method FilterPredicates(items: seq<Entry>) returns (out: Option<seq<Tree>>)
    ensures out == FilterPreds(items)
  {
    var preds: seq<Tree> := [];
    assert items[0..] == items;
    AfterNone(FilterPreds(items));
    for i := 0 to |items|
      invariant After(preds, FilterPreds(items[i..])) == FilterPreds(items)
    {
      assert items[i..][0] == items[i] && items[i..][1..] == items[i + 1..];
      if !items[i].Child? {
        return None;
      }
      var predicate_ := Get(items[i].node.args, "predicate");
      if predicate_.Atom? || predicate_.Many? {
        return None;
      }
      if predicate_.One? {
        var name := ItemName(items[i].node);
        if name.None? || name.value !in NamesIn(predicate_.node) {
          return None;
        }
        AfterTwice(preds, [predicate_.node], FilterPreds(items[i + 1..]));
        preds := preds + [predicate_.node];
      }
    }
    assert preds + [] == preds;
    return Some(preds);
  }

  /** Elements collected so far, in front of those still to come. */
  ghost function After<T>(done: seq<T>, rest: Option<seq<T>>): Option<seq<T>> {
    match rest
    case None => None
    case Some(more) => Some(done + more)
  }

  lemma AfterNone<T>(rest: Option<seq<T>>)
    ensures After([], rest) == rest
  {
    if rest.Some? { assert [] + rest.value == rest.value; }
  }

  lemma AfterTwice<T>(done: seq<T>, more: seq<T>, rest: Option<seq<T>>)
    ensures After(done + more, rest) == After(done, After(more, rest))
  {
    if rest.Some? { ConcatAssoc(done, more, rest.value); }
  }
}
