/** Whole queries as trees: the pass turns a surface query into its core clauses, or rejects it. */
module SurfaceTrees {
  import opened Prelude
  import opened Ast
  import opened ClauseTrees
  import opened Surface
  import F = LoweringFacts
  import H = Hoist
  import L = Lowering

  // ---- clauses as trees -----------------------------------------------------------------------------

  function EncNulls(n: Nulls): L.Arg {
    match n case DefaultNulls => L.Missing case NullsFirst => Text("FIRST") case NullsLast => Text("LAST")
  }

  function EncOrdered(o: Ordered): L.Tree {
    Node3(L.Other("Ordered"), "this", L.One(Enc(o.expr)), "desc", L.Atom(L.Flag(o.desc)), "nulls", EncNulls(o.nulls))
  }

  function EncOrder(os: seq<Ordered>): seq<L.Entry> {
    if os == [] then [] else [L.Child(EncOrdered(os[0]))] + EncOrder(os[1..])
  }

  function EncCount(kind: L.Kind, key: string, e: Option<Expr>): seq<L.Field> {
    if e.None? then [] else [L.Field(key, L.One(Node1(kind, "this", L.One(Enc(e.value)))))]
  }

  /** DISTINCT, ORDER BY, SKIP and LIMIT, as far as they are there. */
  function EncPage(p: Projection): seq<L.Field> {
    var distinct := if p.distinct then [L.Field("distinct", L.Atom(L.Flag(true)))] else [];
    var order := if p.order == [] then []
                 else [L.Field("order", L.One(Node1(L.Other("Order"), "expressions", L.Many(EncOrder(p.order)))))];
    distinct + (order + (EncCount(L.Other("Skip"), "skip", p.skip) + EncCount(L.Other("Limit"), "limit", p.limit)))
  }

  function EncWith(p: Projection, w: Option<Expr>): L.Tree {
    L.Tree(L.With, [L.Field("expressions", L.Many(EncItems(p.items))), L.Field("where", EncWhere(w))] + EncPage(p))
  }

  function EncUnwind(kind: L.Kind, e: Expr, x: string): L.Tree {
    Node2(kind, "expression", L.One(Enc(e)), "alias", L.One(Enc(Identifier(x))))
  }

  function EncClause(c: Clause): L.Tree {
    match c
    case Match(pattern, optional, w) => EncMatch(pattern, optional, w)
    case With(p, w) => EncWith(p, w)
    case Unwind(e, x) => EncUnwind(L.Unwind, e, x)
    case Return(p) => L.Tree(L.Return, [L.Field("expressions", L.Many(EncItems(p.items)))] + EncPage(p))
  }

  function EncClauses(cs: seq<Clause>): seq<L.Entry> {
    if cs == [] then [] else [L.Child(EncClause(cs[0]))] + EncClauses(cs[1..])
  }

  function EncTest(item: FilterItem): L.Tree {
    Node2(L.FilterItem, "variable", L.One(Enc(Identifier(item.name))), "predicate", L.One(Enc(item.pred)))
  }

  function EncTests(items: seq<FilterItem>): seq<L.Entry> {
    if items == [] then [] else [L.Child(EncTest(items[0]))] + EncTests(items[1..])
  }

  function Aliased(items: seq<LetItem>): seq<Item> {
    if items == [] then [] else [Item(items[0].expr, Some(items[0].name))] + Aliased(items[1..])
  }

  function EncSurface(c: SurfaceClause): L.Tree {
    match c
    case Core(d) => EncClause(d)
    case LetClause(items) => Node1(L.Let, "items", L.Many(EncItems(Aliased(items))))
    case FilterClause(items) => Node1(L.Filter, "items", L.Many(EncTests(items)))
    case ForClause(e, x) => EncUnwind(L.For, e, x)
  }

  function EncSurfaces(cs: seq<SurfaceClause>): seq<L.Entry> {
    if cs == [] then [] else [L.Child(EncSurface(cs[0]))] + EncSurfaces(cs[1..])
  }

  function EncQuery(clauses: seq<L.Entry>): L.Tree {
    Node1(L.Query, "clauses", L.Many(clauses))
  }

  // ---- core clauses -----------------------------------------------------------------------------------

  lemma {:induction false} OrderIsCore(os: seq<Ordered>)
    ensures L.EveryItem(F.IsCore, EncOrder(os))
  {
    if os != [] {
      ExprIsCore(os[0].expr);
      Core3(L.Other("Ordered"), "this", L.One(Enc(os[0].expr)), "desc", L.Atom(L.Flag(os[0].desc)),
            "nulls", EncNulls(os[0].nulls));
      OrderIsCore(os[1..]);
    }
  }

  lemma CountIsCore(kind: L.Kind, key: string, e: Option<Expr>)
    requires Ordinary(kind)
    ensures L.EveryArg(F.IsCore, EncCount(kind, key, e))
  {
    if e.Some? {
      ExprIsCore(e.value);
      NodeIsCore(Node1(kind, "this", L.One(Enc(e.value))));
      ArgsAreCore(EncCount(kind, key, e));
    }
  }

  lemma PageIsCore(p: Projection)
    ensures L.EveryArg(F.IsCore, EncPage(p))
  {
    var distinct := if p.distinct then [L.Field("distinct", L.Atom(L.Flag(true)))] else [];
    var order := if p.order == [] then []
                 else [L.Field("order", L.One(Node1(L.Other("Order"), "expressions", L.Many(EncOrder(p.order)))))];
    var skip, limit := EncCount(L.Other("Skip"), "skip", p.skip), EncCount(L.Other("Limit"), "limit", p.limit);
    ArgsAreCore(distinct);
    OrderIsCore(p.order);
    NodeIsCore(Node1(L.Other("Order"), "expressions", L.Many(EncOrder(p.order))));
    ArgsAreCore(order);
    CountIsCore(L.Other("Skip"), "skip", p.skip);
    CountIsCore(L.Other("Limit"), "limit", p.limit);
    EveryConcat(F.IsCore, skip, limit);
    EveryConcat(F.IsCore, order, skip + limit);
    EveryConcat(F.IsCore, distinct, order + (skip + limit));
  }

  lemma PageNotGrouped(p: Projection)
    ensures L.Get(EncPage(p), "group_by") == L.Missing
  {
    GetAbsent(EncPage(p), "group_by");
  }

  lemma ProjectionIsCore(kind: L.Kind, head: seq<L.Field>, p: Projection)
    requires (kind.With? || kind.Return?) && L.EveryArg(F.IsCore, head)
    requires forall i :: 0 <= i < |head| ==> head[i].key != "group_by"
    ensures L.Every(F.IsCore, L.Tree(kind, head + EncPage(p)))
  {
    PageIsCore(p);
    PageNotGrouped(p);
    EveryConcat(F.IsCore, head, EncPage(p));
    GetConcat(head, EncPage(p), "group_by");
  }

  lemma UnwindIsCore(e: Expr, x: string)
    ensures L.Every(F.IsCore, EncUnwind(L.Unwind, e, x))
  {
    ExprIsCore(e);
    ExprIsCore(Identifier(x));
    Core2(L.Unwind, "expression", L.One(Enc(e)), "alias", L.One(Enc(Identifier(x))));
  }

  /** Every clause but MATCH is core as it stands. */
  lemma ClauseIsCore(c: Clause)
    requires !c.Match?
    ensures L.Every(F.IsCore, EncClause(c))
  {
    match c
    case With(p, w) =>
      ItemsAreCore(p.items);
      WhereIsCore(w);
      var head := [L.Field("expressions", L.Many(EncItems(p.items))), L.Field("where", EncWhere(w))];
      ArgsAreCore(head);
      ProjectionIsCore(L.With, head, p);
    case Unwind(e, x) => UnwindIsCore(e, x);
    case Return(p) =>
      ItemsAreCore(p.items);
      ArgsAreCore([L.Field("expressions", L.Many(EncItems(p.items)))]);
      ProjectionIsCore(L.Return, [L.Field("expressions", L.Many(EncItems(p.items)))], p);
  }

  // ---- the names a predicate mentions --------------------------------------------------------------------

  function NamesAt(a: L.Arg): set<string> {
    match a case One(n) => L.NamesIn(n) case Many(items) => L.NamesInItems(items) case _ => {}
  }

  lemma NamesCons(f: L.Field, rest: seq<L.Field>)
    ensures L.NamesInArgs([f] + rest) == NamesAt(f.value) + L.NamesInArgs(rest)
  {
    assert ([f] + rest)[1..] == rest;
  }

  lemma NamesOne(f: L.Field)
    ensures L.NamesInArgs([f]) == NamesAt(f.value)
  {
    NamesCons(f, []);
    assert [f] + [] == [f];
  }

  lemma NamesTwo(f0: L.Field, f1: L.Field)
    ensures L.NamesInArgs([f0, f1]) == NamesAt(f0.value) + NamesAt(f1.value)
  {
    NamesOne(f1);
    NamesCons(f0, [f1]);
    assert [f0] + [f1] == [f0, f1];
  }

  lemma NamesThree(f0: L.Field, f1: L.Field, f2: L.Field)
    ensures L.NamesInArgs([f0, f1, f2]) == NamesAt(f0.value) + NamesAt(f1.value) + NamesAt(f2.value)
  {
    NamesTwo(f1, f2);
    NamesCons(f0, [f1, f2]);
    assert [f0] + [f1, f2] == [f0, f1, f2];
  }

  lemma {:induction false} NamesOfTree(e: Expr)
    ensures L.NamesIn(Enc(e)) == Mentioned(e)
    decreases e, 1
  {
    var args := Enc(e).args;
    if |args| == 1 { NamesOne(args[0]); assert args == [args[0]]; }
    if |args| == 2 { NamesTwo(args[0], args[1]); assert args == [args[0], args[1]]; }
    match e
    case Identifier(x) => assert L.Get(args, "this") == Text(x);
    case Property(o, _) => NamesOfTree(o);
    case ListLit(es) => NamesOfTrees(es);
    case Binary(_, l, r) => NamesOfTree(l); NamesOfTree(r);
    case Not(a) => NamesOfTree(a);
    case Neg(a) => NamesOfTree(a);
    case IsNull(a, _) => NamesOfTree(a);
    case Subscript(b, i) => NamesOfTree(b); NamesOfTree(i);
    case Slice(_, _, _) => NamesOfWide(e);
    case Call(_, _, _) => NamesOfWide(e);
    case Coalesce(es) => NamesOfTrees(es);
    case _ =>
  }

  lemma {:induction false} NamesOfWide(e: Expr)
    requires e.Slice? || e.Call?
    ensures L.NamesIn(Enc(e)) == Mentioned(e)
    decreases e, 0
  {
    var args := Enc(e).args;
    NamesThree(args[0], args[1], args[2]);
    assert args == [args[0], args[1], args[2]];
    match e
    case Slice(b, s, n) => NamesOfTree(b); NamesOfOpt(s); NamesOfOpt(n);
    case Call(_, _, es) => NamesOfTrees(es);
  }

  lemma {:induction false} NamesOfTrees(es: seq<Expr>)
    ensures L.NamesInItems(EncAll(es)) == MentionedAll(es)
    decreases es, 0
  {
    if es != [] {
      NamesOfTree(es[0]);
      NamesOfTrees(es[1..]);
      assert EncAll(es)[1..] == EncAll(es[1..]);
    }
  }

  lemma {:induction false} NamesOfOpt(o: Option<Expr>)
    ensures NamesAt(EncOpt(o)) == MentionedOpt(o)
    decreases o, 0
  {
    if o.Some? { NamesOfTree(o.value); }
  }

  // ---- one clause --------------------------------------------------------------------------------------------

  lemma TestShape(item: FilterItem)
    ensures L.ItemName(EncTest(item)) == Some(item.name)
    ensures L.Get(EncTest(item).args, "predicate") == L.One(Enc(item.pred))
  {
    var args := EncTest(item).args;
    assert args[1..] == [args[1]];
    assert L.Get([args[1]], "predicate") == args[1].value;
    assert L.Get(Enc(Identifier(item.name)).args, "this") == Text(item.name);
  }

  lemma {:induction false} TestsAlike(items: seq<FilterItem>)
    ensures L.FilterPreds(EncTests(items)) == if TestsOwnNames(items) then Some(EncKeys(TestsOf(items))) else None
  {
    if items != [] {
      TestsAlike(items[1..]);
      TestShape(items[0]);
      NamesOfTree(items[0].pred);
      assert EncTests(items)[1..] == EncTests(items[1..]);
      assert TestsOf(items)[1..] == TestsOf(items[1..]);
    }
  }

  lemma {:induction false} TestsAreCore(items: seq<FilterItem>)
    ensures L.EveryItem(F.IsCore, EncTests(items))
  {
    if items != [] {
      ExprIsCore(items[0].pred);
      ExprIsCore(Identifier(items[0].name));
      Core2(L.FilterItem, "variable", L.One(Enc(Identifier(items[0].name))), "predicate", L.One(Enc(items[0].pred)));
      TestsAreCore(items[1..]);
    }
  }

  /** The clause that takes the place of one that is not a LET. */
  function Single(c: SurfaceClause): Clause
    requires !c.LetClause?
  {
    match c
    case Core(d) => HoistIn(d)
    case FilterClause(items) => With(Bare([Star]), H.WhereFrom(TestsOf(items)))
    case ForClause(e, x) => Unwind(e, x)
  }

  /** A clause once its node is lowered; LET waits for the clause list. */
  function Half(c: SurfaceClause): L.Tree {
    if c.LetClause? then EncSurface(c) else EncClause(Single(c))
  }

  predicate FilterFine(c: SurfaceClause) { c.FilterClause? ==> TestsOwnNames(c.tests) }

  predicate LetFine(c: SurfaceClause) { c.LetClause? ==> c.bindings != [] }

  predicate MatchFine(c: SurfaceClause) { c.Core? && c.clause.Match? ==> H.AllHoistable(c.clause.pattern) }

  /** The children of a surface clause that is no MATCH are core. */
  lemma SurfaceArgs(c: SurfaceClause)
    requires !c.Core?
    ensures L.EveryArg(F.IsCore, EncSurface(c).args)
  {
    match c
    case LetClause(items) => ItemsAreCore(Aliased(items)); ArgsAreCore(EncSurface(c).args);
    case FilterClause(items) => TestsAreCore(items); ArgsAreCore(EncSurface(c).args);
    case ForClause(e, x) => UnwindIsCore(e, x);
  }

  lemma LowerFilter(items: seq<FilterItem>)
    ensures L.LowerNode(EncSurface(FilterClause(items))) ==
            if TestsOwnNames(items) then Some(EncClause(Single(FilterClause(items)))) else None
  {
    TestsAlike(items);
    var t := EncSurface(FilterClause(items));
    assert L.Get(t.args, "items") == L.Many(EncTests(items));
    if TestsOwnNames(items) {
      WhereAlike(TestsOf(items));
      assert [Star][1..] == [];
      assert EncItems([Star]) == [L.Child(EncItem(Star))] + EncItems([]) == [L.Child(L.Tree(L.Star, []))];
      var args := [L.Field("expressions", L.Many(EncItems([Star]))),
                   L.Field("where", EncWhere(H.WhereFrom(TestsOf(items))))];
      assert EncPage(Bare([Star])) == [] && args + [] == args;
      assert EncClause(Single(FilterClause(items))) == L.Tree(L.With, args);
    }
  }

  lemma LowerChild(c: SurfaceClause)
    ensures L.Lower(EncSurface(c)) == if FilterFine(c) then Some(Half(c)) else None
  {
    match c
    case Core(d) => LowerCore(d);
    case LetClause(items) =>
      SurfaceArgs(c);
      F.CoreArgsFixed(EncSurface(c).args);
    case FilterClause(items) =>
      SurfaceArgs(c);
      F.CoreArgsFixed(EncSurface(c).args);
      LowerFilter(items);
    case ForClause(e, x) =>
      SurfaceArgs(c);
      F.CoreArgsFixed(EncSurface(c).args);
      LowerFor(e, x);
  }

  lemma LowerCore(d: Clause)
    ensures L.Lower(EncClause(d)) == Some(EncClause(HoistIn(d)))
  {
    if d.Match? {
      LowerMatch(d.pattern, d.optional, d.where);
    } else {
      ClauseIsCore(d);
      F.CoreFixed(EncClause(d));
    }
  }

  lemma LowerFor(e: Expr, x: string)
    ensures L.LowerNode(EncUnwind(L.For, e, x)) == Some(EncUnwind(L.Unwind, e, x))
  {
    var args := EncUnwind(L.For, e, x).args;
    assert args[1..] == [args[1]];
    assert L.Get([args[1]], "alias") == args[1].value;
  }

  // ---- the clause list -------------------------------------------------------------------------------------------

  function Halves(cs: seq<SurfaceClause>): seq<L.Entry> {
    if cs == [] then [] else [L.Child(Half(cs[0]))] + Halves(cs[1..])
  }

  /** The core clauses of a clause, were nothing wrong with it. */
  function Parts(c: SurfaceClause): seq<Clause> {
    if c.LetClause? then Map(WithItem(), c.bindings) else [Single(c)]
  }

  function AllParts(cs: seq<SurfaceClause>): seq<Clause> {
    if cs == [] then [] else Parts(cs[0]) + AllParts(cs[1..])
  }

  predicate AllFine(p: SurfaceClause -> bool, cs: seq<SurfaceClause>) {
    cs == [] || (p(cs[0]) && AllFine(p, cs[1..]))
  }

  lemma {:induction false} LowerChildren(cs: seq<SurfaceClause>)
    ensures L.LowerItems(EncSurfaces(cs)) == if AllFine(FilterFine, cs) then Some(Halves(cs)) else None
  {
    if cs != [] {
      LowerChild(cs[0]);
      LowerChildren(cs[1..]);
      assert EncSurfaces(cs)[1..] == EncSurfaces(cs[1..]);
    }
  }

  lemma {:induction false} ClausesConcat(cs: seq<Clause>, ds: seq<Clause>)
    ensures EncClauses(cs + ds) == EncClauses(cs) + EncClauses(ds)
  {
    if cs == [] {
      assert cs + ds == ds;
    } else {
      assert (cs + ds)[1..] == cs[1..] + ds;
      ClausesConcat(cs[1..], ds);
    }
  }

  lemma LetWithAlike(item: LetItem)
    ensures L.LetWith(L.Child(EncItem(Item(item.expr, Some(item.name))))) == L.Child(EncClause(WithItem()(item)))
  {
    var items := WithItem()(item).proj.items;
    assert items[1..] == [items[1]] && [items[1]][1..] == [];
    assert EncItems([items[1]]) == [L.Child(EncItem(items[1]))] + EncItems([]);
    assert EncItems(items) == [L.Child(L.Tree(L.Star, [])), L.Child(EncItem(items[1]))];
    var args := [L.Field("expressions", L.Many(EncItems(items))), L.Field("where", L.Missing)];
    assert EncPage(WithItem()(item).proj) == [] && args + [] == args;
  }

  lemma {:induction false} LetsAlike(items: seq<LetItem>)
    ensures Map(L.LetWith, EncItems(Aliased(items))) == EncClauses(Map(WithItem(), items))
    ensures (EncItems(Aliased(items)) == []) == (items == [])
  {
    if items != [] {
      LetsAlike(items[1..]);
      LetWithAlike(items[0]);
      var first := L.Child(EncItem(Item(items[0].expr, Some(items[0].name))));
      assert Aliased(items)[1..] == Aliased(items[1..]);
      assert EncItems(Aliased(items)) == [first] + EncItems(Aliased(items[1..]));
      MapAppend(L.LetWith, [first], EncItems(Aliased(items[1..])));
      assert Map(L.LetWith, [first]) == [L.LetWith(first)];
      assert Map(WithItem(), items)[1..] == Map(WithItem(), items[1..]);
    }
  }

  lemma {:induction false} ExpandHalves(cs: seq<SurfaceClause>)
    ensures L.ExpandLets(Halves(cs)) == if AllFine(LetFine, cs) then Some(EncClauses(AllParts(cs))) else None
  {
    if cs != [] {
      ExpandHalves(cs[1..]);
      assert Halves(cs)[1..] == Halves(cs[1..]);
      ClausesConcat(Parts(cs[0]), AllParts(cs[1..]));
      if cs[0].LetClause? {
        LetsAlike(cs[0].bindings);
        assert L.Get(EncSurface(cs[0]).args, "items") == L.Many(EncItems(Aliased(cs[0].bindings)));
      } else {
        var d := Single(cs[0]);
        assert [d][1..] == [] && EncClauses([d]) == [L.Child(EncClause(d))] + EncClauses([]);
      }
    }
  }

  lemma {:induction false} FineAltogether(cs: seq<SurfaceClause>)
    ensures LowerClauses(cs) ==
            if AllFine(FilterFine, cs) && AllFine(LetFine, cs) && AllFine(MatchFine, cs) then Some(AllParts(cs))
            else None
  {
    if cs != [] {
      FineAltogether(cs[1..]);
      assert LowerClause(cs[0]) ==
             if FilterFine(cs[0]) && LetFine(cs[0]) && MatchFine(cs[0]) then Some(Parts(cs[0])) else None;
    }
  }

  // ---- the two checks ----------------------------------------------------------------------------------------------

  lemma SurfaceSupported(c: SurfaceClause)
    ensures L.Every(L.Supported, EncSurface(c)) <==> MatchFine(c)
  {
    CoreIsSupported();
    if c.Core? {
      if c.clause.Match? {
        MatchSupported(c.clause.pattern, c.clause.optional, c.clause.where);
      } else {
        ClauseIsCore(c.clause);
        CoreEvery(L.Supported, EncSurface(c));
      }
    } else {
      SurfaceArgs(c);
      ArgsEvery(L.Supported, EncSurface(c).args);
    }
  }

  lemma {:induction false} SurfacesSupported(cs: seq<SurfaceClause>)
    ensures L.EveryItem(L.Supported, EncSurfaces(cs)) <==> AllFine(MatchFine, cs)
  {
    if cs != [] {
      SurfaceSupported(cs[0]);
      SurfacesSupported(cs[1..]);
      assert EncSurfaces(cs)[1..] == EncSurfaces(cs[1..]);
    }
  }

  lemma PartBare(c: Clause)
    ensures L.Every(L.NothingInline, EncClause(HoistIn(c)))
  {
    if c.Match? {
      MatchBare(c.pattern, c.optional, H.HoistedWhere(c.pattern, c.where));
    } else {
      CoreIsBare();
      ClauseIsCore(c);
      CoreEvery(L.NothingInline, EncClause(c));
    }
  }

  lemma {:induction false} BareConcat(cs: seq<Clause>, ds: seq<Clause>)
    requires L.EveryItem(L.NothingInline, EncClauses(cs)) && L.EveryItem(L.NothingInline, EncClauses(ds))
    ensures L.EveryItem(L.NothingInline, EncClauses(cs + ds))
  {
    if cs == [] {
      assert cs + ds == ds;
    } else {
      assert (cs + ds)[1..] == cs[1..] + ds && EncClauses(cs)[1..] == EncClauses(cs[1..]);
      BareConcat(cs[1..], ds);
    }
  }

  lemma {:induction false} LetsBare(items: seq<LetItem>)
    ensures L.EveryItem(L.NothingInline, EncClauses(Map(WithItem(), items)))
  {
    if items != [] {
      PartBare(WithItem()(items[0]));
      LetsBare(items[1..]);
      assert Map(WithItem(), items)[1..] == Map(WithItem(), items[1..]);
    }
  }

  lemma {:induction false} PartsBare(cs: seq<SurfaceClause>)
    ensures L.EveryItem(L.NothingInline, EncClauses(AllParts(cs)))
  {
    if cs != [] {
      PartsBare(cs[1..]);
      if cs[0].LetClause? {
        LetsBare(cs[0].bindings);
      } else {
        PartBare(if cs[0].Core? then cs[0].clause else Single(cs[0]));
        assert [Single(cs[0])][1..] == [];
      }
      BareConcat(Parts(cs[0]), AllParts(cs[1..]));
    }
  }

  // ---- the theorem ----------------------------------------------------------------------------------------

  lemma EveryQuery(p: L.Tree -> bool, clauses: seq<L.Entry>)
    requires HoldsOfCore(p)
    ensures L.Every(p, EncQuery(clauses)) <==> L.EveryItem(p, clauses)
  {
    var args := EncQuery(clauses).args;
    assert args[1..] == [];
    assert F.IsCore(EncQuery(clauses));
    assert L.EveryArg(p, args) <==> L.EveryIn(p, args[0].value) && L.EveryArg(p, []);
  }

  lemma LowerQueryArgs(clauses: seq<L.Entry>)
    ensures L.LowerArgs(EncQuery(clauses).args) ==
            if L.LowerItems(clauses).Some? then Some(EncQuery(L.LowerItems(clauses).value).args) else None
  {
    var args := EncQuery(clauses).args;
    assert args[1..] == [] && L.LowerArgs([]) == Some([]);
    if L.LowerItems(clauses).Some? {
      var out := EncQuery(L.LowerItems(clauses).value).args;
      assert [out[0]] + [] == out;
    }
  }

  lemma LowerQueryNode(clauses: seq<L.Entry>)
    ensures L.LowerNode(EncQuery(clauses)) ==
            if L.ExpandLets(clauses).Some? then Some(EncQuery(L.ExpandLets(clauses).value)) else None
  {
    var args := EncQuery(clauses).args;
    assert L.Get(args, "clauses") == L.Many(clauses);
    if L.ExpandLets(clauses).Some? {
      var out := EncQuery(L.ExpandLets(clauses).value).args;
      assert args[1..] == [] && [out[0]] + [] == out;
    }
  }

  lemma LowerQuery(cs: seq<SurfaceClause>)
    ensures L.Lower(EncQuery(EncSurfaces(cs))) ==
            if AllFine(FilterFine, cs) && AllFine(LetFine, cs) then Some(EncQuery(EncClauses(AllParts(cs)))) else None
  {
    LowerChildren(cs);
    ExpandHalves(cs);
    LowerQueryArgs(EncSurfaces(cs));
    LowerQueryNode(Halves(cs));
  }

  /** Lowering the tree of a surface query gives the tree of its core clauses, or fails, exactly as
      `LowerClauses` says. */
  lemma LoweredQuery(cs: seq<SurfaceClause>)
    ensures L.LowerToCore(EncQuery(EncSurfaces(cs))) ==
            if LowerClauses(cs).Some? then Some(EncQuery(EncClauses(LowerClauses(cs).value))) else None
  {
    FineAltogether(cs);
    CoreIsSupported();
    SurfacesSupported(cs);
    EveryQuery(L.Supported, EncSurfaces(cs));
    LowerQuery(cs);
    CoreIsBare();
    PartsBare(cs);
    EveryQuery(L.NothingInline, EncClauses(AllParts(cs)));
  }
}
