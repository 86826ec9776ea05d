/** Typed clauses as trees: what lowering does to them is the hoisting and the GROUP BY check of the
    other modules. */
module ClauseTrees {
  import opened Prelude
  import opened Ast
  import opened KeyMatching
  import E = Evaluation
  import Q = Query
  import G = GroupBy
  import H = Hoist
  import C = HoistClause
  import M = Matcher
  import L = Lowering
  import F = LoweringFacts

  // ---- expressions as trees ------------------------------------------------------------------------

  function Text(s: string): L.Arg { L.Atom(L.Text(s)) }

  function Node1(kind: L.Kind, key: string, a: L.Arg): L.Tree {
    L.Tree(kind, [L.Field(key, a)])
  }

  function Node2(kind: L.Kind, k0: string, a0: L.Arg, k1: string, a1: L.Arg): L.Tree {
    L.Tree(kind, [L.Field(k0, a0), L.Field(k1, a1)])
  }

  function Node3(kind: L.Kind, k0: string, a0: L.Arg, k1: string, a1: L.Arg, k2: string, a2: L.Arg): L.Tree {
    L.Tree(kind, [L.Field(k0, a0), L.Field(k1, a1), L.Field(k2, a2)])
  }

  function Enc(e: Expr): L.Tree
    decreases e
  {
    match e
    case NullLit => Node1(L.NullLit, "this", L.Missing)
    case Boolean(b) => Node1(L.BooleanLit, "this", L.Atom(L.Flag(b)))
    case Integer(i) => Node1(L.IntegerLit, "this", L.Atom(L.Number(i)))
    case FloatLit(r) => Node1(L.FloatLit, "this", L.Atom(L.Decimal(r)))
    case StringLit(s) => Node1(L.StringLit, "this", Text(s))
    case Parameter(p) => Node1(L.Parameter, "name", Text(p))
    case Identifier(x) => Node1(L.Identifier, "this", Text(x))
    case Property(o, k) => Node2(L.Property, "this", L.One(Enc(o)), "name", Text(k))
    case ListLit(es) => Node1(L.ListLit, "expressions", L.Many(EncAll(es)))
    case Binary(op, l, r) => Node2(L.Binary(op), "this", L.One(Enc(l)), "expression", L.One(Enc(r)))
    case Not(a) => Node1(L.Not, "this", L.One(Enc(a)))
    case Neg(a) => Node1(L.Neg, "this", L.One(Enc(a)))
    case IsNull(a, n) => Node2(L.IsNull, "this", L.One(Enc(a)), "not_", L.Atom(L.Flag(n)))
    case Subscript(b, i) => Node2(L.ListSubscript, "this", L.One(Enc(b)), "index", L.One(Enc(i)))
    case Slice(b, s, n) => Node3(L.ListSlice, "this", L.One(Enc(b)), "start", EncOpt(s), "end", EncOpt(n))
    case Call(f, d, es) =>
      Node3(L.FunctionCall, "name", Text(f), "expressions", L.Many(EncAll(es)), "distinct", L.Atom(L.Flag(d)))
    case Coalesce(es) => Node1(L.Coalesce, "expressions", L.Many(EncAll(es)))
    case StarArg => L.Tree(L.Star, [])
  }

  function EncAll(es: seq<Expr>): seq<L.Entry>
    decreases es
  {
    if es == [] then [] else [L.Child(Enc(es[0]))] + EncAll(es[1..])
  }

  function EncOpt(o: Option<Expr>): L.Arg
    decreases o
  {
    if o.Some? then L.One(Enc(o.value)) else L.Missing
  }

  // ---- the encoding loses nothing --------------------------------------------------------------------

  /** The kind of the tree tells the constructor. */
  lemma SameShape(e: Expr, f: Expr)
    requires Enc(e).kind == Enc(f).kind
    ensures (e.Property? <==> f.Property?) && (e.ListLit? <==> f.ListLit?) && (e.Binary? <==> f.Binary?)
    ensures (e.Not? <==> f.Not?) && (e.Neg? <==> f.Neg?) && (e.IsNull? <==> f.IsNull?)
            && (e.Subscript? <==> f.Subscript?)
    ensures (e.Slice? <==> f.Slice?) && (e.Call? <==> f.Call?) && (e.Coalesce? <==> f.Coalesce?)
    ensures (e.NullLit? <==> f.NullLit?) && (e.Boolean? <==> f.Boolean?) && (e.Integer? <==> f.Integer?)
    ensures (e.FloatLit? <==> f.FloatLit?) && (e.StringLit? <==> f.StringLit?) && (e.Parameter? <==> f.Parameter?)
    ensures (e.Identifier? <==> f.Identifier?) && (e.StarArg? <==> f.StarArg?)
    ensures e.Binary? && f.Binary? ==> e.op == f.op
  {
  }

  lemma SameArgs(e: Expr, f: Expr)
    requires Enc(e) == Enc(f)
    ensures |Enc(e).args| == |Enc(f).args|
    ensures Enc(e).args != [] ==> Enc(e).args[0].value == Enc(f).args[0].value
    ensures |Enc(e).args| > 1 ==> Enc(e).args[1].value == Enc(f).args[1].value
    ensures |Enc(e).args| > 2 ==> Enc(e).args[2].value == Enc(f).args[2].value
  {
  }

  lemma {:induction false} Injective(e: Expr, f: Expr)
    requires Enc(e) == Enc(f)
    ensures e == f
    decreases e, 1
  {
    SameShape(e, f);
    SameArgs(e, f);
    match e
    case Property(o, k) => Injective(o, f.obj);
    case Binary(op, l, r) => Injective(l, f.left); Injective(r, f.right);
    case Subscript(b, i) => Injective(b, f.base); Injective(i, f.index);
    case Slice(_, _, _) => InjectiveSlice(e, f);
    case Not(_) => InjectiveUnary(e, f);
    case Neg(_) => InjectiveUnary(e, f);
    case IsNull(_, _) => InjectiveUnary(e, f);
    case ListLit(_) => InjectiveList(e, f);
    case Call(_, _, _) => InjectiveList(e, f);
    case Coalesce(_) => InjectiveList(e, f);
    case _ => InjectiveLeaf(e, f);
  }

  lemma InjectiveLeaf(e: Expr, f: Expr)
    requires Enc(e) == Enc(f)
    requires e.NullLit? || e.Boolean? || e.Integer? || e.FloatLit? || e.StringLit? || e.Parameter? || e.Identifier?
             || e.StarArg?
    ensures e == f
  {
    SameShape(e, f);
    SameArgs(e, f);
  }

  lemma {:induction false} InjectiveSlice(e: Expr, f: Expr)
    requires Enc(e) == Enc(f) && e.Slice?
    ensures e == f
    decreases e, 0
  {
    SameShape(e, f);
    SameArgs(e, f);
    Injective(e.base, f.base);
    InjectiveOpt(e.start, f.start);
    InjectiveOpt(e.end, f.end);
  }

  lemma {:induction false} InjectiveUnary(e: Expr, f: Expr)
    requires Enc(e) == Enc(f) && (e.Not? || e.Neg? || e.IsNull?)
    ensures e == f
    decreases e, 0
  {
    SameShape(e, f);
    SameArgs(e, f);
    Injective(e.arg, f.arg);
  }

  lemma {:induction false} InjectiveList(e: Expr, f: Expr)
    requires Enc(e) == Enc(f) && (e.ListLit? || e.Call? || e.Coalesce?)
    ensures e == f
    decreases e, 0
  {
    SameShape(e, f);
    SameArgs(e, f);
    if e.ListLit? { InjectiveAll(e.items, f.items); } else { InjectiveAll(e.args, f.args); }
  }

  lemma {:induction false} InjectiveAll(es: seq<Expr>, fs: seq<Expr>)
    requires EncAll(es) == EncAll(fs)
    ensures es == fs
    decreases es, 0
  {
    if es != [] && fs != [] {
      assert EncAll(es)[0] == EncAll(fs)[0] && EncAll(es)[1..] == EncAll(fs)[1..];
      Injective(es[0], fs[0]);
      InjectiveAll(es[1..], fs[1..]);
      assert es == [es[0]] + es[1..] && fs == [fs[0]] + fs[1..];
    }
  }

  lemma {:induction false} InjectiveOpt(o: Option<Expr>, q: Option<Expr>)
    requires EncOpt(o) == EncOpt(q)
    ensures o == q
    decreases o
  {
    if o.Some? && q.Some? { Injective(o.value, q.value); }
  }

  // ---- expressions are core ------------------------------------------------------------------------------

  /** Kinds of which the pass asks nothing. */
  predicate Ordinary(kind: L.Kind) {
    !(kind.For? || kind.Filter? || kind.Let? || kind.Search? || kind.LoadCsv? || kind.AdminStatement?
        || kind.WhenQuery?)
    && !(kind.NodePattern? || kind.RelPattern? || kind.With? || kind.Return? || kind.CallSubquery? || kind.Query?)
    && !(kind.Match? || kind.PatternComprehension?)
  }

  /** An ordinary node with up to three core arguments. */
  lemma NodeIsCore(t: L.Tree)
    requires Ordinary(t.kind) && |t.args| <= 3
    requires forall i :: 0 <= i < |t.args| ==> L.EveryIn(F.IsCore, t.args[i].value)
    ensures L.Every(F.IsCore, t)
  {
    ArgsAreCore(t.args);
  }

  lemma ArgsAreCore(args: seq<L.Field>)
    requires |args| <= 3 && forall i :: 0 <= i < |args| ==> L.EveryIn(F.IsCore, args[i].value)
    ensures L.EveryArg(F.IsCore, args)
  {
    if args != [] {
      assert forall i :: 0 <= i < |args[1..]| ==> args[1..][i] == args[i + 1];
      ArgsAreCore(args[1..]);
    }
  }

  lemma Core2(kind: L.Kind, k0: string, a0: L.Arg, k1: string, a1: L.Arg)
    requires Ordinary(kind) && L.EveryIn(F.IsCore, a0) && L.EveryIn(F.IsCore, a1)
    ensures L.Every(F.IsCore, Node2(kind, k0, a0, k1, a1))
  {
    NodeIsCore(Node2(kind, k0, a0, k1, a1));
  }

  lemma Core3(kind: L.Kind, k0: string, a0: L.Arg, k1: string, a1: L.Arg, k2: string, a2: L.Arg)
    requires Ordinary(kind) && L.EveryIn(F.IsCore, a0) && L.EveryIn(F.IsCore, a1) && L.EveryIn(F.IsCore, a2)
    ensures L.Every(F.IsCore, Node3(kind, k0, a0, k1, a1, k2, a2))
  {
    NodeIsCore(Node3(kind, k0, a0, k1, a1, k2, a2));
  }

  lemma LeafIsCore(e: Expr)
    requires Enc(e).args == [] || (|Enc(e).args| == 1 && L.EveryIn(F.IsCore, Enc(e).args[0].value))
    ensures L.Every(F.IsCore, Enc(e))
  {
    NodeIsCore(Enc(e));
  }

  lemma {:induction false} ExprIsCore(e: Expr)
    ensures L.Every(F.IsCore, Enc(e))
    decreases e, 1
  {
    match e
    case Property(o, k) =>
      ExprIsCore(o);
      Core2(L.Property, "this", L.One(Enc(o)), "name", Text(k));
    case Binary(op, l, r) =>
      ExprIsCore(l);
      ExprIsCore(r);
      Core2(L.Binary(op), "this", L.One(Enc(l)), "expression", L.One(Enc(r)));
    case IsNull(a, n) =>
      ExprIsCore(a);
      Core2(L.IsNull, "this", L.One(Enc(a)), "not_", L.Atom(L.Flag(n)));
    case Subscript(b, i) =>
      ExprIsCore(b);
      ExprIsCore(i);
      Core2(L.ListSubscript, "this", L.One(Enc(b)), "index", L.One(Enc(i)));
    case Slice(_, _, _) => WideIsCore(e);
    case Call(_, _, _) => WideIsCore(e);
    case _ => SmallIsCore(e);
  }

  /** Expressions with three arguments. */
  lemma {:induction false} WideIsCore(e: Expr)
    requires e.Slice? || e.Call?
    ensures L.Every(F.IsCore, Enc(e))
    decreases e, 0
  {
    match e
    case Slice(b, s, n) =>
      ExprIsCore(b);
      OptIsCore(s);
      OptIsCore(n);
      Core3(L.ListSlice, "this", L.One(Enc(b)), "start", EncOpt(s), "end", EncOpt(n));
    case Call(f, d, es) =>
      ExprsAreCore(es);
      Core3(L.FunctionCall, "name", Text(f), "expressions", L.Many(EncAll(es)), "distinct", L.Atom(L.Flag(d)));
  }

  /** Expressions with at most one argument. */
  lemma {:induction false} SmallIsCore(e: Expr)
    requires |Enc(e).args| <= 1
    ensures L.Every(F.IsCore, Enc(e))
    decreases e, 0
  {
    match e {
      case ListLit(es) => ExprsAreCore(es);
      case Not(a) => ExprIsCore(a);
      case Neg(a) => ExprIsCore(a);
      case Coalesce(es) => ExprsAreCore(es);
      case _ =>
    }
    LeafIsCore(e);
  }

  lemma {:induction false} ExprsAreCore(es: seq<Expr>)
    ensures L.EveryItem(F.IsCore, EncAll(es))
    decreases es
  {
    if es != [] {
      ExprIsCore(es[0]);
      ExprsAreCore(es[1..]);
    }
  }

  lemma {:induction false} OptIsCore(o: Option<Expr>)
    ensures L.EveryIn(F.IsCore, EncOpt(o))
    decreases o
  {
    if o.Some? { ExprIsCore(o.value); }
  }

  // ---- GROUP BY ----------------------------------------------------------------------------------------------

  function EncItem(item: Item): L.Tree {
    match item
    case Star => L.Tree(L.Star, [])
    case Item(e, None) => Enc(e)
    case Item(e, Some(x)) => Node2(L.Alias, "this", L.One(Enc(e)), "alias", L.One(Enc(Identifier(x))))
  }

  function EncItems(items: seq<Item>): seq<L.Entry> {
    if items == [] then [] else [L.Child(EncItem(items[0]))] + EncItems(items[1..])
  }

  function EncGrouping(g: Grouping<Expr>): Grouping<L.Tree> {
    Grouping(Enc(g.core), if g.alias.Some? then Some(Enc(g.alias.value)) else None)
  }

  function EncGroupings(gs: seq<Grouping<Expr>>): seq<Grouping<L.Tree>> {
    if gs == [] then [] else [EncGrouping(gs[0])] + EncGroupings(gs[1..])
  }

  function EncKeys(keys: seq<Expr>): seq<L.Tree> {
    if keys == [] then [] else [Enc(keys[0])] + EncKeys(keys[1..])
  }

  /** A bare `*` is the projection item of that name, not an expression. */
  predicate StarsAreItems(items: seq<Item>) {
    forall i :: 0 <= i < |items| ==> items[i] != Item(StarArg, None)
  }

  lemma ItemShape(item: Item)
    requires item != Item(StarArg, None)
    ensures EncItem(item).kind.Star? <==> item.Star?
    ensures L.IsAggregate(EncItem(item)) <==> Q.IsAgg(item)
  {
    if item.Item? { assert L.Core(EncItem(item)) == Enc(item.expr); }
  }

  lemma ItemGrouping(item: Item)
    requires item.Item?
    ensures L.GroupingOf(EncItem(item)) == EncGrouping(Grouping(item.expr, G.AliasExpr(item.alias)))
  {
    if item.alias.Some? {
      var alias := L.Field("alias", L.One(Enc(Identifier(item.alias.value))));
      assert EncItem(item).args[1..] == [alias];
      assert L.Get([alias], "alias") == alias.value;
    }
    assert L.Core(EncItem(item)) == Enc(item.expr);
  }

  lemma FitsAlike(key: Expr, g: Grouping<Expr>)
    ensures Fits(Enc(key), EncGrouping(g)) <==> Fits(key, g)
  {
    if Enc(key) == Enc(g.core) { Injective(key, g.core); }
    if g.alias.Some? && Enc(key) == Enc(g.alias.value) { Injective(key, g.alias.value); }
  }

  lemma {:induction false} FirstFitAlike(key: Expr, gs: seq<Grouping<Expr>>)
    ensures |EncGroupings(gs)| == |gs|
    ensures FirstFit(Enc(key), EncGroupings(gs)) == FirstFit(key, gs)
  {
    if gs != [] {
      FitsAlike(key, gs[0]);
      FirstFitAlike(key, gs[1..]);
    }
  }

  lemma {:induction false} WithoutAlike(gs: seq<Grouping<Expr>>, i: nat)
    requires i < |gs| && |EncGroupings(gs)| == |gs|
    ensures Without(EncGroupings(gs), i) == EncGroupings(Without(gs, i))
  {
    if i == 0 {
      assert Without(gs, 0) == gs[1..];
    } else {
      FirstFitAlike(NullLit, gs[1..]);
      WithoutAlike(gs[1..], i - 1);
      assert Without(gs, i) == [gs[0]] + Without(gs[1..], i - 1);
    }
  }

  lemma {:induction false} KeysMatchAlike(keys: seq<Expr>, gs: seq<Grouping<Expr>>)
    ensures KeysMatch(EncKeys(keys), EncGroupings(gs)) <==> KeysMatch(keys, gs)
    decreases keys
  {
    if keys != [] {
      FirstFitAlike(keys[0], gs);
      var i := FirstFit(keys[0], gs);
      if i < |gs| {
        WithoutAlike(gs, i);
        KeysMatchAlike(keys[1..], Without(gs, i));
      }
    }
  }

  lemma {:induction false} ItemsAlike(items: seq<Item>)
    requires StarsAreItems(items)
    ensures |EncItems(items)| == |items|
    ensures forall i :: 0 <= i < |items| ==> EncItems(items)[i] == L.Child(EncItem(items[i]))
  {
    if items != [] { ItemsAlike(items[1..]); }
  }

  lemma GroupingsCons(t: L.Tree, items: seq<L.Entry>)
    ensures L.Groupings([L.Child(t)] + items) ==
            if L.IsAggregate(t) then L.Groupings(items) else [L.GroupingOf(t)] + L.Groupings(items)
  {
    assert ([L.Child(t)] + items)[1..] == items;
  }

  lemma EncGroupingsCons(g: Grouping<Expr>, gs: seq<Grouping<Expr>>)
    ensures EncGroupings([g] + gs) == [EncGrouping(g)] + EncGroupings(gs)
  {
    assert ([g] + gs)[1..] == gs;
  }

  lemma {:induction false} GroupingsAlike(items: seq<Item>)
    requires StarsAreItems(items) && !HasStar(items)
    ensures L.Groupings(EncItems(items)) == EncGroupings(G.NonAggregates(items))
  {
    if items != [] {
      HasStarCons(items);
      ItemShape(items[0]);
      ItemGrouping(items[0]);
      GroupingsAlike(items[1..]);
      GroupingsCons(EncItem(items[0]), EncItems(items[1..]));
      if !Q.IsAgg(items[0]) {
        EncGroupingsCons(Grouping(items[0].expr, G.AliasExpr(items[0].alias)), G.NonAggregates(items[1..]));
      } else {
        assert [] + G.NonAggregates(items[1..]) == G.NonAggregates(items[1..]);
      }
    }
  }

  lemma {:induction false} KeyNodes(keys: seq<Expr>)
    ensures L.Nodes(EncAll(keys)) == Some(EncKeys(keys))
  {
    if keys != [] {
      KeyNodes(keys[1..]);
      assert EncAll(keys)[1..] == EncAll(keys[1..]);
    }
  }

  /** The check on trees is the check on items. */
  lemma SameGroupByCheck(t: L.Tree, items: seq<Item>, keys: seq<Expr>)
    requires StarsAreItems(items) && L.Get(t.args, "expressions") == L.Many(EncItems(items))
    ensures L.KeysMatchProjection(t, EncAll(keys)) <==> G.MatchesProjection(items, keys)
  {
    var entries := EncItems(items);
    ItemsAlike(items);
    forall i | 0 <= i < |items|
      ensures entries[i].node.kind.Star? <==> items[i].Star?
      ensures L.IsAggregate(entries[i].node) <==> Q.IsAgg(items[i])
    {
      ItemShape(items[i]);
    }
    assert L.AnyItem((e: L.Tree) => e.kind.Star?, entries) <==> HasStar(items);
    assert L.AnyItem((e: L.Tree) => L.IsAggregate(e), entries) <==> Q.HasAgg(items);
    KeyNodes(keys);
    if !HasStar(items) {
      GroupingsAlike(items);
      KeysMatchAlike(keys, G.NonAggregates(items));
    }
  }

  // ---- patterns as trees -------------------------------------------------------------------------------------

  function EncName(name: Option<string>): L.Arg {
    if name.Some? then L.One(Enc(Identifier(name.value))) else L.Missing
  }

  function EncWords(words: seq<string>): seq<L.Entry> {
    if words == [] then [] else [L.Word(words[0])] + EncWords(words[1..])
  }

  function EncEntries(entries: Entries): seq<L.Entry> {
    if entries == [] then []
    else [L.Tuple([Text(entries[0].0), L.One(Enc(entries[0].1))])] + EncEntries(entries[1..])
  }

  function EncMap(properties: Option<Entries>): L.Arg {
    if properties.Some? then L.One(Node1(L.MapLit, "entries", L.Many(EncEntries(properties.value)))) else L.Missing
  }

  function EncWhere(w: Option<Expr>): L.Arg {
    if w.Some? then L.One(Node1(L.Where, "this", L.One(Enc(w.value)))) else L.Missing
  }

  function EncBound(n: Option<nat>): L.Arg {
    if n.Some? then L.Atom(L.Number(n.value)) else L.Missing
  }

  function EncDirection(d: Direction): L.Arg {
    match d case Outgoing => Text("OUTGOING") case Incoming => Text("INCOMING") case Both => Text("BOTH")
  }

  /** What an element binds and requires, apart from its WHERE and its length. */
  function EncPlainArgs(el: Element): seq<L.Field> {
    match el
    case NodeEl(n) =>
      [L.Field("variable", EncName(n.variable)),
       L.Field("labels", L.One(Node1(L.LabelExpression, "labels", L.Many(EncWords(n.labels))))),
       L.Field("properties", EncMap(n.properties))]
    case RelEl(r) =>
      [L.Field("variable", EncName(r.variable)), L.Field("types", L.Many(EncWords(r.types))),
       L.Field("properties", EncMap(r.properties)), L.Field("direction", EncDirection(r.direction))]
  }

  function EncHopArgs(r: RelPattern): seq<L.Field> {
    [L.Field("min_hops", EncBound(r.minHops)), L.Field("max_hops", EncBound(r.maxHops)),
     L.Field("variable_length", if r.variableLength then L.Atom(L.Flag(true)) else L.Missing)]
  }

  function EncEl(el: Element): L.Tree {
    var where := [L.Field("where", EncWhere(WhereOf(el)))];
    match el
    case NodeEl(_) => L.Tree(L.NodePattern, where + EncPlainArgs(el))
    case RelEl(r) => L.Tree(L.RelPattern, where + (EncHopArgs(r) + EncPlainArgs(el)))
  }

  function EncEls(elems: seq<Element>): seq<L.Entry> {
    if elems == [] then [] else [L.Child(EncEl(elems[0]))] + EncEls(elems[1..])
  }

  function EncPath(path: Path): L.Tree {
    Node2(L.PathPattern, "variable", EncName(path.variable), "elements", L.Many(EncEls(path.elements)))
  }

  function EncPaths(pattern: Pattern): seq<L.Entry> {
    if pattern == [] then [] else [L.Child(EncPath(pattern[0]))] + EncPaths(pattern[1..])
  }

  function EncPattern(pattern: Pattern): L.Tree {
    Node1(L.Pattern, "paths", L.Many(EncPaths(pattern)))
  }

  function EncMatch(pattern: Pattern, optional: bool, w: Option<Expr>): L.Tree {
    Node3(L.Match, "pattern", L.One(EncPattern(pattern)), "where", EncWhere(w), "optional", L.Atom(L.Flag(optional)))
  }

  // ---- the nodes of an encoded pattern ----------------------------------------------------------------------

  predicate AllEls(p: L.Tree -> bool, elems: seq<Element>) {
    elems == [] || (p(EncEl(elems[0])) && AllEls(p, elems[1..]))
  }

  predicate AllPaths(p: L.Tree -> bool, pattern: Pattern) {
    pattern == [] || (AllEls(p, pattern[0].elements) && AllPaths(p, pattern[1..]))
  }

  ghost predicate HoldsOfCore(p: L.Tree -> bool) {
    forall n: L.Tree :: F.IsCore(n) ==> p(n)
  }

  lemma CoreEvery(p: L.Tree -> bool, t: L.Tree)
    requires HoldsOfCore(p) && L.Every(F.IsCore, t)
    ensures L.Every(p, t)
  {
    F.EveryBoth(F.IsCore, F.IsCore, p, t);
  }

  lemma {:induction false} WordsCore(words: seq<string>)
    ensures L.EveryItem(F.IsCore, EncWords(words))
  {
    if words != [] { WordsCore(words[1..]); }
  }

  lemma {:induction false} EntriesCore(entries: Entries)
    ensures L.EveryItem(F.IsCore, EncEntries(entries))
  {
    if entries != [] { EntriesCore(entries[1..]); }
  }

  lemma NameIsCore(name: Option<string>)
    ensures L.EveryIn(F.IsCore, EncName(name))
  {
    if name.Some? { ExprIsCore(Identifier(name.value)); }
  }

  lemma MapIsCore(properties: Option<Entries>)
    ensures L.EveryIn(F.IsCore, EncMap(properties))
  {
    if properties.Some? {
      EntriesCore(properties.value);
      NodeIsCore(EncMap(properties).node);
    }
  }

  lemma WhereIsCore(w: Option<Expr>)
    ensures L.EveryIn(F.IsCore, EncWhere(w))
  {
    if w.Some? {
      ExprIsCore(w.value);
      ArgsAreCore(EncWhere(w).node.args);
    }
  }

  lemma {:induction false} EveryConcat(p: L.Tree -> bool, xs: seq<L.Field>, ys: seq<L.Field>)
    requires L.EveryArg(p, xs) && L.EveryArg(p, ys)
    ensures L.EveryArg(p, xs + ys)
  {
    if xs == [] {
      assert xs + ys == ys;
    } else {
      assert (xs + ys)[1..] == xs[1..] + ys;
      EveryConcat(p, xs[1..], ys);
    }
  }

  lemma PlainArgsCore(el: Element)
    ensures L.EveryArg(F.IsCore, EncPlainArgs(el))
  {
    match el
    case NodeEl(n) =>
      NameIsCore(n.variable);
      MapIsCore(n.properties);
      WordsCore(n.labels);
      NodeIsCore(Node1(L.LabelExpression, "labels", L.Many(EncWords(n.labels))));
      ArgsAreCore(EncPlainArgs(el));
    case RelEl(r) =>
      NameIsCore(r.variable);
      MapIsCore(r.properties);
      WordsCore(r.types);
      var args := EncPlainArgs(el);
      ArgsAreCore(args[..1]);
      ArgsAreCore(args[1..]);
      EveryConcat(F.IsCore, args[..1], args[1..]);
      assert args == args[..1] + args[1..];
  }

  lemma ElArgsCore(el: Element)
    ensures L.EveryArg(F.IsCore, EncEl(el).args)
  {
    var where := [L.Field("where", EncWhere(WhereOf(el)))];
    WhereIsCore(WhereOf(el));
    ArgsAreCore(where);
    PlainArgsCore(el);
    match el
    case NodeEl(_) => EveryConcat(F.IsCore, where, EncPlainArgs(el));
    case RelEl(r) =>
      ArgsAreCore(EncHopArgs(r));
      EveryConcat(F.IsCore, EncHopArgs(r), EncPlainArgs(el));
      EveryConcat(F.IsCore, where, EncHopArgs(r) + EncPlainArgs(el));
  }

  // ---- looking up the arguments of an element ----------------------------------------------------------------

  lemma {:induction false} GetConcat(xs: seq<L.Field>, ys: seq<L.Field>, key: string)
    ensures L.Get(xs + ys, key) ==
            if forall i :: 0 <= i < |xs| ==> xs[i].key != key then L.Get(ys, key) else L.Get(xs, key)
  {
    if xs == [] {
      assert xs + ys == ys;
    } else {
      assert (xs + ys)[1..] == xs[1..] + ys;
      GetConcat(xs[1..], ys, key);
      if xs[0].key != key {
        assert (forall i :: 0 <= i < |xs| ==> xs[i].key != key) <==>
               forall i :: 0 <= i < |xs[1..]| ==> xs[1..][i].key != key by {
          assert forall i :: 0 <= i < |xs[1..]| ==> xs[1..][i] == xs[i + 1];
          assert forall i :: 0 < i < |xs| ==> xs[i] == xs[1..][i - 1];
        }
      }
    }
  }

  lemma {:induction false} GetAbsent(args: seq<L.Field>, key: string)
    requires forall i :: 0 <= i < |args| ==> args[i].key != key
    ensures L.Get(args, key) == L.Missing
  {
    if args != [] { GetAbsent(args[1..], key); }
  }

  lemma HopGets(r: RelPattern)
    ensures L.Get(EncHopArgs(r), "min_hops") == EncBound(r.minHops)
    ensures L.Get(EncHopArgs(r), "max_hops") == EncBound(r.maxHops)
    ensures L.Get(EncHopArgs(r), "variable_length") == if r.variableLength then L.Atom(L.Flag(true)) else L.Missing
  {
    var args := EncHopArgs(r);
    assert args[1..][0] == args[1] && args[1..][1..][0] == args[2];
    assert L.Get(args[1..], "max_hops") == args[1].value;
    assert L.Get(args[1..][1..], "variable_length") == args[2].value;
    assert L.Get(args[1..], "variable_length") == args[2].value;
  }

  lemma RelGets(r: RelPattern)
    ensures var args := EncEl(RelEl(r)).args;
            && L.Get(args, "memgraph_quantifier") == L.Missing
            && L.Get(args, "where") == EncWhere(r.where)
            && L.Get(args, "min_hops") == EncBound(r.minHops) && L.Get(args, "max_hops") == EncBound(r.maxHops)
            && L.Get(args, "variable_length") == if r.variableLength then L.Atom(L.Flag(true)) else L.Missing
  {
    var where := [L.Field("where", EncWhere(r.where))];
    var rest := EncHopArgs(r) + EncPlainArgs(RelEl(r));
    GetAbsent(EncEl(RelEl(r)).args, "memgraph_quantifier");
    HopGets(r);
    GetConcat(where, rest, "min_hops");
    GetConcat(where, rest, "max_hops");
    GetConcat(where, rest, "variable_length");
    HopGetsOn(r, "min_hops", 0);
    HopGetsOn(r, "max_hops", 1);
    HopGetsOn(r, "variable_length", 2);
  }

  lemma HopGetsOn(r: RelPattern, key: string, at: nat)
    requires at < 3 && EncHopArgs(r)[at].key == key
    ensures L.Get(EncHopArgs(r) + EncPlainArgs(RelEl(r)), key) == L.Get(EncHopArgs(r), key)
  {
    GetConcat(EncHopArgs(r), EncPlainArgs(RelEl(r)), key);
  }

  lemma WherePreds(w: Option<Expr>)
    ensures L.OptSeq(L.PredOf(EncWhere(w))) == EncKeys(H.ListOf(w))
  {
    if w.Some? {
      assert L.PredOf(EncWhere(w)) == Some(Enc(w.value));
      assert EncKeys([w.value]) == [Enc(w.value)] + EncKeys([w.value][1..]);
    }
  }

  lemma HoistEl(el: Element)
    ensures L.Hoist(EncEl(el)) == (EncKeys(H.ListOf(WhereOf(el))), EncEl(H.StripEl(el)))
  {
    var args, bare := EncEl(el).args, EncEl(H.StripEl(el)).args;
    var rest := if el.NodeEl? then EncPlainArgs(el) else EncHopArgs(el.rel) + EncPlainArgs(el);
    assert args == [L.Field("where", EncWhere(WhereOf(el)))] + rest;
    assert args[1..] == rest;
    assert L.Set(args, "where", L.Missing) == [L.Field("where", L.Missing)] + rest == bare;
    assert L.Get(args, "where") == EncWhere(WhereOf(el));
    WherePreds(WhereOf(el));
    assert L.IsElement(EncEl(el).kind) && EncEl(el).(args := bare) == EncEl(H.StripEl(el));
  }

  lemma ElNode(el: Element)
    ensures L.Supported(EncEl(el)) <==> H.Hoistable(el)
    ensures L.NothingInline(EncEl(el)) <==> WhereOf(el).None?
    ensures L.LowerNode(EncEl(el)) == Some(EncEl(el))
  {
    if el.RelEl? { RelGets(el.rel); }
    assert EncEl(el).args[0] == L.Field("where", EncWhere(WhereOf(el)));
  }

  // ---- hoisting off a typed pattern ----------------------------------------------------------------------------

  lemma {:induction false} KeysConcat(es: seq<Expr>, fs: seq<Expr>)
    ensures EncKeys(es + fs) == EncKeys(es) + EncKeys(fs)
  {
    if es == [] {
      assert es + fs == fs;
    } else {
      assert (es + fs)[1..] == es[1..] + fs;
      KeysConcat(es[1..], fs);
    }
  }

  lemma {:induction false} HoistEls(elems: seq<Element>)
    ensures L.HoistItems(EncEls(elems)) == (EncKeys(H.Preds(elems)), EncEls(H.Strip(elems)))
  {
    if elems != [] {
      HoistEl(elems[0]);
      HoistEls(elems[1..]);
      KeysConcat(H.ListOf(WhereOf(elems[0])), H.Preds(elems[1..]));
      assert EncEls(elems)[1..] == EncEls(elems[1..]);
      assert H.Strip(elems)[1..] == H.Strip(elems[1..]);
    }
  }

  lemma HoistName(name: Option<string>)
    ensures L.HoistArg(EncName(name)) == ([], EncName(name))
  {
  }

  lemma HoistOne(f: L.Field)
    ensures L.HoistArgs([f]) == (L.HoistArg(f.value).0, [L.Field(f.key, L.HoistArg(f.value).1)])
  {
    assert [f][1..] == [];
    var (ps, a) := L.HoistArg(f.value);
    assert L.HoistArgs([f][1..]) == ([], []);
    assert ps + [] == ps && [L.Field(f.key, a)] + [] == [L.Field(f.key, a)];
  }

  lemma HoistTwo(a0: L.Field, a1: L.Field)
    requires L.HoistArg(a0.value) == ([], a0.value)
    ensures L.HoistArgs([a0, a1]) == (L.HoistArg(a1.value).0, [a0, L.Field(a1.key, L.HoistArg(a1.value).1)])
  {
    assert [a0, a1][1..] == [a1] && [a1][1..] == [];
    HoistOne(a1);
    var (ps, rest) := L.HoistArgs([a1]);
    assert L.HoistArgs([a0, a1]) == ([] + ps, [L.Field(a0.key, a0.value)] + rest);
    assert [] + ps == ps && [a0] + rest == [a0, rest[0]];
  }

  lemma HoistPath(path: Path)
    ensures L.Hoist(EncPath(path)) ==
            (EncKeys(H.Preds(path.elements)), EncPath(path.(elements := H.Strip(path.elements))))
  {
    HoistEls(path.elements);
    HoistName(path.variable);
    HoistTwo(L.Field("variable", EncName(path.variable)), L.Field("elements", L.Many(EncEls(path.elements))));
  }

  lemma {:induction false} HoistPaths(pattern: Pattern)
    ensures L.HoistItems(EncPaths(pattern)) == (EncKeys(H.PatternPreds(pattern)), EncPaths(H.StripPattern(pattern)))
  {
    if pattern != [] {
      HoistPath(pattern[0]);
      HoistPaths(pattern[1..]);
      KeysConcat(H.Preds(pattern[0].elements), H.PatternPreds(pattern[1..]));
      assert EncPaths(pattern)[1..] == EncPaths(pattern[1..]);
      assert H.StripPattern(pattern)[1..] == H.StripPattern(pattern[1..]);
    }
  }

  lemma HoistPattern(pattern: Pattern)
    ensures L.HoistArg(L.One(EncPattern(pattern))) ==
            (EncKeys(H.PatternPreds(pattern)), L.One(EncPattern(H.StripPattern(pattern))))
  {
    HoistPaths(pattern);
    HoistOne(L.Field("paths", L.Many(EncPaths(pattern))));
  }

  lemma {:induction false} ConjAlike(acc: Expr, preds: seq<Expr>)
    ensures L.ConjAll(Enc(acc), EncKeys(preds)) == Enc(H.AndOnto(acc, preds))
    decreases |preds|
  {
    if preds != [] {
      assert EncKeys(preds)[1..] == EncKeys(preds[1..]);
      ConjAlike(Binary(AndOp, acc, preds[0]), preds[1..]);
    }
  }

  lemma WhereAlike(preds: seq<Expr>)
    ensures L.WhereOf(EncKeys(preds)) == EncWhere(H.WhereFrom(preds))
  {
    if preds != [] {
      assert EncKeys(preds)[1..] == EncKeys(preds[1..]);
      ConjAlike(preds[0], preds[1..]);
    }
  }

  /** On trees, a MATCH takes over its inline predicates just as `Hoist` says. */
  lemma SameHoisting(pattern: Pattern, optional: bool, w: Option<Expr>)
    ensures L.HoistInto(EncMatch(pattern, optional, w)) ==
            EncMatch(H.StripPattern(pattern), optional, H.HoistedWhere(pattern, w))
  {
    var t := EncMatch(pattern, optional, w);
    var preds := EncKeys(H.PatternPreds(pattern));
    HoistPattern(pattern);
    assert t.args[1..][0] == t.args[1];
    assert L.Get(t.args[1..], "where") == EncWhere(w);
    WherePreds(w);
    KeysConcat(H.ListOf(w), H.PatternPreds(pattern));
    WhereAlike(H.ListOf(w) + H.PatternPreds(pattern));
    var p := L.One(EncPattern(H.StripPattern(pattern)));
    var args := L.Set(t.args, "pattern", p);
    assert args == [L.Field("pattern", p)] + t.args[1..];
    assert args[1..] == t.args[1..];
    SetSecond(args, "where", EncWhere(H.HoistedWhere(pattern, w)));
  }

  lemma SetSecond(args: seq<L.Field>, key: string, a: L.Arg)
    requires |args| == 3 && args[0].key != key && args[1].key == key
    ensures L.Set(args, key, a) == [args[0], L.Field(key, a), args[2]]
  {
    assert args[1..] == [args[1], args[2]];
    assert args[1..][1..] == [args[2]];
    assert L.Set(args[1..], key, a) == [L.Field(key, a)] + [args[2]];
  }

  // ---- the whole pass on a typed clause --------------------------------------------------------------------------

  lemma {:induction false} EveryEls(p: L.Tree -> bool, elems: seq<Element>)
    requires HoldsOfCore(p)
    ensures L.EveryItem(p, EncEls(elems)) <==> AllEls(p, elems)
  {
    if elems != [] {
      ElArgsCore(elems[0]);
      ArgsEvery(p, EncEl(elems[0]).args);
      assert EncEls(elems)[1..] == EncEls(elems[1..]);
      EveryEls(p, elems[1..]);
    }
  }

  lemma ArgsEvery(p: L.Tree -> bool, args: seq<L.Field>)
    requires HoldsOfCore(p) && L.EveryArg(F.IsCore, args)
    ensures L.EveryArg(p, args)
  {
    F.EveryBothArgs(F.IsCore, F.IsCore, p, args);
  }

  lemma EveryTwo(p: L.Tree -> bool, a0: L.Field, a1: L.Field)
    ensures L.EveryArg(p, [a0, a1]) <==> L.EveryIn(p, a0.value) && L.EveryIn(p, a1.value)
  {
    assert [a0, a1][1..] == [a1] && [a1][1..] == [];
    assert L.EveryArg(p, [a1]) <==> L.EveryIn(p, a1.value) && L.EveryArg(p, []);
  }

  lemma EveryPath(p: L.Tree -> bool, path: Path)
    requires HoldsOfCore(p)
    ensures L.Every(p, EncPath(path)) <==> AllEls(p, path.elements)
  {
    EveryEls(p, path.elements);
    NameIsCore(path.variable);
    if path.variable.Some? { CoreEvery(p, Enc(Identifier(path.variable.value))); }
    assert F.IsCore(EncPath(path));
    EveryTwo(p, L.Field("variable", EncName(path.variable)), L.Field("elements", L.Many(EncEls(path.elements))));
  }

  lemma {:induction false} EveryPaths(p: L.Tree -> bool, pattern: Pattern)
    requires HoldsOfCore(p)
    ensures L.EveryItem(p, EncPaths(pattern)) <==> AllPaths(p, pattern)
  {
    if pattern != [] {
      EveryPath(p, pattern[0]);
      EveryPaths(p, pattern[1..]);
      assert EncPaths(pattern)[1..] == EncPaths(pattern[1..]);
    }
  }

  lemma EveryPattern(p: L.Tree -> bool, pattern: Pattern)
    requires HoldsOfCore(p)
    ensures L.Every(p, EncPattern(pattern)) <==> AllPaths(p, pattern)
  {
    EveryPaths(p, pattern);
    var paths := L.Field("paths", L.Many(EncPaths(pattern)));
    assert [paths][1..] == [];
    assert L.EveryArg(p, [paths]) <==> L.EveryIn(p, paths.value) && L.EveryArg(p, []);
    assert F.IsCore(EncPattern(pattern));
  }

  lemma EveryMatch(p: L.Tree -> bool, pattern: Pattern, optional: bool, w: Option<Expr>)
    requires HoldsOfCore(p)
    ensures L.Every(p, EncMatch(pattern, optional, w)) <==> AllPaths(p, pattern)
  {
    var t := EncMatch(pattern, optional, w);
    EveryPattern(p, pattern);
    WhereIsCore(w);
    if w.Some? { CoreEvery(p, EncWhere(w).node); }
    EveryTwo(p, t.args[1], t.args[2]);
    assert t.args[1..] == [t.args[1], t.args[2]];
    assert L.EveryArg(p, t.args) <==> L.EveryIn(p, t.args[0].value) && L.EveryArg(p, t.args[1..]);
    MatchIsCore(pattern, optional, w);
  }

  lemma MatchIsCore(pattern: Pattern, optional: bool, w: Option<Expr>)
    ensures F.IsCore(EncMatch(pattern, optional, w))
  {
    var t := EncMatch(pattern, optional, w);
    assert t.args[1..][0] == t.args[1];
    assert L.Get(t.args, "where") == L.Get(t.args[1..], "where") == EncWhere(w);
    if w.Some? {
      assert L.PredOf(EncWhere(w)) == Some(Enc(w.value));
      assert [Enc(w.value)][1..] == [];
      assert L.ConjAll(Enc(w.value), []) == Enc(w.value);
    }
  }

  lemma LowerEl(el: Element)
    ensures L.Lower(EncEl(el)) == Some(EncEl(el))
  {
    ElArgsCore(el);
    F.CoreArgsFixed(EncEl(el).args);
    ElNode(el);
  }

  lemma {:induction false} LowerEls(elems: seq<Element>)
    ensures L.LowerItems(EncEls(elems)) == Some(EncEls(elems))
  {
    if elems != [] {
      LowerEl(elems[0]);
      LowerEls(elems[1..]);
      assert EncEls(elems)[1..] == EncEls(elems[1..]);
    }
  }

  lemma FixedCons(f: L.Field, rest: seq<L.Field>)
    requires L.LowerArg(f.value) == Some(f.value) && L.LowerArgs(rest) == Some(rest)
    ensures L.LowerArgs([f] + rest) == Some([f] + rest)
  {
    assert ([f] + rest)[1..] == rest;
  }

  lemma FixedOne(f: L.Field)
    requires L.LowerArg(f.value) == Some(f.value)
    ensures L.LowerArgs([f]) == Some([f])
  {
    FixedCons(f, []);
    assert [f] + [] == [f];
  }

  lemma FixedTwo(f0: L.Field, f1: L.Field)
    requires L.LowerArg(f0.value) == Some(f0.value) && L.LowerArg(f1.value) == Some(f1.value)
    ensures L.LowerArgs([f0, f1]) == Some([f0, f1])
  {
    FixedOne(f1);
    FixedCons(f0, [f1]);
    assert [f0] + [f1] == [f0, f1];
  }

  lemma LowerCoreArg(a: L.Arg)
    requires L.EveryIn(F.IsCore, a)
    ensures L.LowerArg(a) == Some(a)
  {
    match a
    case One(n) => F.CoreFixed(n);
    case Many(items) => F.CoreItemsFixed(items);
    case _ =>
  }

  lemma LowerPath(path: Path)
    ensures L.Lower(EncPath(path)) == Some(EncPath(path))
  {
    LowerEls(path.elements);
    NameIsCore(path.variable);
    LowerCoreArg(EncName(path.variable));
    FixedTwo(L.Field("variable", EncName(path.variable)), L.Field("elements", L.Many(EncEls(path.elements))));
  }

  lemma {:induction false} LowerPaths(pattern: Pattern)
    ensures L.LowerItems(EncPaths(pattern)) == Some(EncPaths(pattern))
  {
    if pattern != [] {
      LowerPath(pattern[0]);
      LowerPaths(pattern[1..]);
      assert EncPaths(pattern)[1..] == EncPaths(pattern[1..]);
    }
  }

  lemma LowerPattern(pattern: Pattern)
    ensures L.LowerArg(L.One(EncPattern(pattern))) == Some(L.One(EncPattern(pattern)))
  {
    LowerPaths(pattern);
    FixedOne(EncPattern(pattern).args[0]);
  }

  lemma LowerMatchArgs(pattern: Pattern, optional: bool, w: Option<Expr>)
    ensures L.LowerArgs(EncMatch(pattern, optional, w).args) == Some(EncMatch(pattern, optional, w).args)
  {
    LowerPattern(pattern);
    WhereIsCore(w);
    LowerCoreArg(EncWhere(w));
    var args := EncMatch(pattern, optional, w).args;
    FixedTwo(args[1], args[2]);
    FixedCons(args[0], [args[1], args[2]]);
    assert args == [args[0]] + [args[1], args[2]];
  }

  lemma {:induction false} SupportedEls(elems: seq<Element>)
    ensures AllEls(L.Supported, elems) <==> forall j :: 0 <= j < |elems| ==> H.Hoistable(elems[j])
  {
    if elems != [] {
      ElNode(elems[0]);
      SupportedEls(elems[1..]);
      assert elems == [elems[0]] + elems[1..];
    }
  }

  lemma {:induction false} SupportedPaths(pattern: Pattern)
    ensures AllPaths(L.Supported, pattern) <==> H.AllHoistable(pattern)
  {
    if pattern != [] {
      SupportedEls(pattern[0].elements);
      SupportedPaths(pattern[1..]);
      assert pattern == [pattern[0]] + pattern[1..];
    }
  }

  lemma {:induction false} BareEls(elems: seq<Element>)
    ensures AllEls(L.NothingInline, H.Strip(elems))
  {
    if elems != [] {
      ElNode(H.StripEl(elems[0]));
      BareEls(elems[1..]);
      assert H.Strip(elems)[1..] == H.Strip(elems[1..]);
    }
  }

  lemma {:induction false} BarePaths(pattern: Pattern)
    ensures AllPaths(L.NothingInline, H.StripPattern(pattern))
  {
    if pattern != [] {
      BareEls(pattern[0].elements);
      BarePaths(pattern[1..]);
      assert H.StripPattern(pattern)[1..] == H.StripPattern(pattern[1..]);
    }
  }

  lemma CoreIsSupported()
    ensures HoldsOfCore(L.Supported)
  {
  }

  lemma CoreIsBare()
    ensures HoldsOfCore(L.NothingInline)
  {
  }

  lemma MatchSupported(pattern: Pattern, optional: bool, w: Option<Expr>)
    ensures L.Every(L.Supported, EncMatch(pattern, optional, w)) <==> H.AllHoistable(pattern)
  {
    CoreIsSupported();
    EveryMatch(L.Supported, pattern, optional, w);
    SupportedPaths(pattern);
  }

  lemma MatchBare(pattern: Pattern, optional: bool, w: Option<Expr>)
    ensures L.Every(L.NothingInline, EncMatch(H.StripPattern(pattern), optional, w))
  {
    CoreIsBare();
    BarePaths(pattern);
    EveryMatch(L.NothingInline, H.StripPattern(pattern), optional, w);
  }

  lemma LowerMatch(pattern: Pattern, optional: bool, w: Option<Expr>)
    ensures L.Lower(EncMatch(pattern, optional, w)) ==
            Some(EncMatch(H.StripPattern(pattern), optional, H.HoistedWhere(pattern, w)))
  {
    LowerMatchArgs(pattern, optional, w);
    SameHoisting(pattern, optional, w);
  }

  /** Lowering a MATCH clause hoists its inline predicates, unless one sits on a variable-length
      relationship: then the clause is rejected. */
  lemma LoweredMatch(pattern: Pattern, optional: bool, w: Option<Expr>)
    ensures L.LowerToCore(EncMatch(pattern, optional, w)) ==
            if H.AllHoistable(pattern)
            then Some(EncMatch(H.StripPattern(pattern), optional, H.HoistedWhere(pattern, w)))
            else None
  {
    MatchSupported(pattern, optional, w);
    LowerMatch(pattern, optional, w);
    MatchBare(pattern, optional, H.HoistedWhere(pattern, w));
  }

  /** Lowered, an accepted MATCH clause of settled predicates returns the rows of the clause as written. */
  lemma LoweringKeepsMatch(ctx: E.Ctx, pattern: Pattern, optional: bool, w: Option<Expr>, rows: seq<Row>)
    returns (core: Pattern, where: Option<Expr>)
    requires L.LowerToCore(EncMatch(pattern, optional, w)).Some? && C.HoistSafe(pattern)
    ensures L.LowerToCore(EncMatch(pattern, optional, w)) == Some(EncMatch(core, optional, where))
    ensures M.MatchClause(ctx, true, pattern, optional, w, rows).Ok?
            && M.MatchClause(ctx, false, core, optional, where, rows).Ok?
            ==> M.MatchClause(ctx, true, pattern, optional, w, rows) ==
                M.MatchClause(ctx, false, core, optional, where, rows)
  {
    LoweredMatch(pattern, optional, w);
    core, where := H.StripPattern(pattern), H.HoistedWhere(pattern, w);
    if M.MatchClause(ctx, true, pattern, optional, w, rows).Ok?
        && M.MatchClause(ctx, false, core, optional, where, rows).Ok? {
      C.HoistKeepsClause(ctx, pattern, optional, w, rows);
    }
  }

  // ---- a projection with GROUP BY -----------------------------------------------------------------------------------

  /** WITH or RETURN with these items, grouped by these keys. */
  function EncGrouped(items: seq<Item>, keys: seq<Expr>): seq<L.Field> {
    [L.Field("group_by", L.One(Node1(L.GroupBy, "expressions", L.Many(EncAll(keys))))),
     L.Field("expressions", L.Many(EncItems(items)))]
  }

  lemma ItemIsCore(item: Item)
    ensures L.Every(F.IsCore, EncItem(item))
  {
    match item
    case Star =>
    case Item(e, None) => ExprIsCore(e);
    case Item(e, Some(x)) => ExprIsCore(e); ExprIsCore(Identifier(x)); NodeIsCore(EncItem(item));
  }

  lemma {:induction false} ItemsAreCore(items: seq<Item>)
    ensures L.EveryItem(F.IsCore, EncItems(items))
  {
    if items != [] {
      ItemIsCore(items[0]);
      ItemsAreCore(items[1..]);
    }
  }

  function EncUngrouped(items: seq<Item>): seq<L.Field> {
    [L.Field("group_by", L.Missing), L.Field("expressions", L.Many(EncItems(items)))]
  }

  lemma GroupedIsCore(items: seq<Item>, keys: seq<Expr>)
    ensures L.EveryArg(F.IsCore, EncGrouped(items, keys)) && L.EveryArg(F.IsCore, EncUngrouped(items))
  {
    ItemsAreCore(items);
    ExprsAreCore(keys);
    var g := EncGrouped(items, keys)[0].value.node;
    ArgsAreCore(g.args);
    assert F.IsCore(g);
    ArgsAreCore(EncGrouped(items, keys));
    ArgsAreCore(EncUngrouped(items));
  }

  lemma ClearedNode(kind: L.Kind, items: seq<Item>, keys: seq<Expr>)
    requires (kind.With? || kind.Return?) && StarsAreItems(items)
    ensures L.LowerNode(L.Tree(kind, EncGrouped(items, keys))) ==
            if G.MatchesProjection(items, keys) then Some(L.Tree(kind, EncUngrouped(items))) else None
  {
    var args := EncGrouped(items, keys);
    assert args[1..] == [args[1]];
    assert L.Get([args[1]], "expressions") == args[1].value;
    assert L.Get(args, "expressions") == L.Get(args[1..], "expressions");
    SameGroupByCheck(L.Tree(kind, args), items, keys);
    assert L.Set(args, "group_by", L.Missing) == EncUngrouped(items);
  }

  lemma GroupedSupported(kind: L.Kind, items: seq<Item>, keys: seq<Expr>)
    requires kind.With? || kind.Return?
    ensures L.Every(L.Supported, L.Tree(kind, EncGrouped(items, keys)))
    ensures L.Every(L.NothingInline, L.Tree(kind, EncUngrouped(items)))
  {
    GroupedIsCore(items, keys);
    CoreIsSupported();
    CoreIsBare();
    ArgsEvery(L.Supported, EncGrouped(items, keys));
    ArgsEvery(L.NothingInline, EncUngrouped(items));
  }

  lemma LowerGrouped(kind: L.Kind, items: seq<Item>, keys: seq<Expr>)
    ensures L.Lower(L.Tree(kind, EncGrouped(items, keys))) == L.LowerNode(L.Tree(kind, EncGrouped(items, keys)))
  {
    GroupedIsCore(items, keys);
    F.CoreArgsFixed(EncGrouped(items, keys));
  }

  /** Lowering a grouped projection clears the keys when they match its items, and rejects it otherwise. */
  lemma LoweredProjection(kind: L.Kind, items: seq<Item>, keys: seq<Expr>)
    requires (kind.With? || kind.Return?) && StarsAreItems(items)
    ensures L.LowerToCore(L.Tree(kind, EncGrouped(items, keys))) ==
            if G.MatchesProjection(items, keys) then Some(L.Tree(kind, EncUngrouped(items))) else None
  {
    GroupedSupported(kind, items, keys);
    LowerGrouped(kind, items, keys);
    ClearedNode(kind, items, keys);
  }
}
