/** Accepted queries that still fail on an unknown variable: one each for a function's own name as argument,
    a property map, SKIP, and ORDER BY beside an aggregate. */
module ScopeGaps {
  import opened Prelude
  import opened Ast
  import opened Evaluation
  import opened Matcher
  import opened Query
  import opened QueryFacts
  import opened Scope

  function Simple(items: seq<Item>): Projection {
    Projection(items, false, [], None, None)
  }

  lemma OneReturn(ctx: Ctx, c: Clause, p: Projection)
    requires c == Return(p)
    ensures RunQuery(ctx, [c]) == ProjectOrAggregate(ctx, p, None, [map[]])
  {
    var s := State([map[]], []);
    assert [c][1..] == [];
    assert RunClauses(ctx, [c], Ok(s)) == RunClauses(ctx, [], RunClause(ctx, c, s));
  }

  lemma ThenReturn(ctx: Ctx, first: Clause, p: Projection, rows: seq<Row>)
    requires RunClause(ctx, first, State([map[]], [])) == Ok(State(rows, []))
    ensures RunQuery(ctx, [first, Return(p)]) == ProjectOrAggregate(ctx, p, None, rows)
  {
    var cs := [first, Return(p)];
    var s := State([map[]], []);
    assert cs[1..] == [Return(p)] && [Return(p)][1..] == [];
    assert RunClauses(ctx, cs, Ok(s)) == RunClauses(ctx, [Return(p)], Ok(State(rows, [])));
    assert RunClauses(ctx, [Return(p)], Ok(State(rows, []))) ==
           RunClauses(ctx, [], RunClause(ctx, Return(p), State(rows, [])));
  }

  lemma TwoClauses(c: Clause, d: Clause)
    requires Missing(c, {}) == {} && Missing(d, ScopeAfter(c, {})) == {}
    ensures Accepts([c, d], {})
  {
    assert [c, d][1..] == [d] && [d][1..] == [];
    assert Accepts([d], ScopeAfter(c, {}));
  }

  /** `RETURN size(size)`: an argument spelled like its function is not looked up. */
  lemma SelfNamedArgument(ctx: Ctx)
    requires "size" !in ctx.params
    ensures var cs := [Return(Simple([Item(Call("size", false, [Identifier("size")]), None)]))];
            Accepts(cs, {}) && RunQuery(ctx, cs) == Err(UnknownVariable("size"))
  {
    var call := Call("size", false, [Identifier("size")]);
    var items := [Item(call, None)];
    var p := Simple(items);
    assert RefsArgs("size", [Identifier("size")]) == RefsArgs("size", [][0..]) by {
      assert [Identifier("size")][1..] == [];
    }
    assert Refs(call) == {};
    assert items[1..] == [];
    assert ItemRefs(items) == {};
    assert PageRefs(p) == {};
    assert Missing(Return(p), {}) == {};
    assert [Return(p)][1..] == [];
    assert !HasAgg(items);
    OneReturn(ctx, Return(p), p);
    assert Eval(ctx, Identifier("size"), ctx.params + map[]) == Err(UnknownVariable("size"));
    assert EvalAll(ctx, [Identifier("size")], ctx.params + map[]) == Err(UnknownVariable("size"));
    assert ProjectRow(ctx, items, map[], map[]) == Err(UnknownVariable("size"));
    assert FlatMapR(PairFn(ctx, items), [map[]]) == Err(UnknownVariable("size"));
  }

  /** `MATCH (n {k: y}) RETURN n`: property maps are not looked at. */
  lemma UndefinedInPropertyMap(ctx: Ctx)
    requires "y" !in ctx.params && ctx.g.nodeIds != []
    ensures var node := NodePattern(Some("n"), [], Some([("k", Identifier("y"))]), None);
            var cs := [Match([Path(None, [NodeEl(node)])], false, None), Return(Simple([Item(Identifier("n"), None)]))];
            Accepts(cs, {}) && RunQuery(ctx, cs) == Err(UnknownVariable("y"))
  {
    var entries := [("k", Identifier("y"))];
    var node := NodePattern(Some("n"), [], Some(entries), None);
    var path := Path(None, [NodeEl(node)]);
    var m := Match([path], false, None);
    var items := [Item(Identifier("n"), None)];
    assert items[1..] == [];
    assert ItemRefs(items) == {"n"};
    assert [path][1..] == [] && path.elements[1..] == [];
    assert ElementVars(path.elements) == {"n"};
    assert PatternVars([path]) == {"n"};
    TwoClauses(m, Return(Simple(items)));
    var n := ctx.g.nodeIds[0];
    assert PropsMatch(ctx, entries, n, ctx.params + map[]) == Err(UnknownVariable("y"));
    assert NodeTest(ctx, node, map[])(n) == Err(UnknownVariable("y"));
    assert FilterR(NodeTest(ctx, node, map[]), ctx.g.nodeIds) == Err(UnknownVariable("y"));
    assert MatchPath(ctx, false, path, map[]) == Err(UnknownVariable("y"));
    assert FlatMapR(PathFn(ctx, false, path), [map[]]) == Err(UnknownVariable("y"));
    assert MatchPaths(ctx, false, [path], Ok([map[]])) == MatchPaths(ctx, false, [], Err(UnknownVariable("y")));
    assert BlockFn(ctx, false, [path], false, None)(map[]) == Err(UnknownVariable("y"));
    assert FlatMapR(BlockFn(ctx, false, [path], false, None), [map[]]) == Err(UnknownVariable("y"));
    var s := State([map[]], []);
    var cs := [m, Return(Simple(items))];
    assert RunClauses(ctx, cs, Ok(s)) == RunClauses(ctx, cs[1..], Err(UnknownVariable("y")));
  }

  /** `UNWIND 1 AS y RETURN y SKIP y`: SKIP is checked against the scope but evaluated with no row. */
  lemma SkipUsesARow(ctx: Ctx)
    requires "y" !in ctx.params
    ensures var p := Projection([Item(Identifier("y"), None)], false, [], Some(Identifier("y")), None);
            var cs := [Unwind(Integer(1), "y"), Return(p)];
            Accepts(cs, {}) && RunQuery(ctx, cs) == Err(UnknownVariable("y"))
  {
    var items := [Item(Identifier("y"), None)];
    var p := Projection(items, false, [], Some(Identifier("y")), None);
    assert items[1..] == [];
    assert ItemRefs(items) == {"y"};
    TwoClauses(Unwind(Integer(1), "y"), Return(p));
    var row: Row := map["y" := Int(1)];
    UnwindOne(ctx);
    ThenReturn(ctx, Unwind(Integer(1), "y"), p, [row]);
    assert !HasAgg(items);
    assert ProjectRow(ctx, items, row, map[]).Ok? by {
      assert Eval(ctx, Identifier("y"), ctx.params + row) == Ok(Int(1));
      assert ProjectRow(ctx, [], row, map["y" := Int(1)]).Ok?;
    }
    assert FlatMapR(PairFn(ctx, items), [row]).Ok?;
    assert Count(ctx, Identifier("y")) == Err(UnknownVariable("y"));
    var ps := FlatMapR(PairFn(ctx, items), [row]).value;
    KeepAll(ctx, ps);
  }

  lemma UnwindOne(ctx: Ctx)
    ensures RunClause(ctx, Unwind(Integer(1), "y"), State([map[]], [])) == Ok(State([map["y" := Int(1)]], []))
  {
    var f := UnwindFn(ctx, Integer(1), "y");
    assert f(map[]) == Ok([map["y" := Int(1)]]);
    FlatMapOne(f, map[]);
  }

  /** `RETURN count(*) AS c ORDER BY y`. */
  function CountOrdered(): Projection {
    Projection([Item(Call("count", false, [StarArg]), Some("c"))], false,
               [Ordered(Identifier("y"), false, DefaultNulls)], None, None)
  }

  lemma CountOrderedAccepted()
    ensures Accepts([Unwind(Integer(1), "y"), Return(CountOrdered())], {})
  {
    var p := CountOrdered();
    assert p.items[1..] == [] && p.order[1..] == [] && [StarArg][1..] == [];
    assert RefsArgs("count", [StarArg]) == {};
    assert ItemRefs(p.items) == {};
    assert OrderRefs(p.order) == {"y"};
    TwoClauses(Unwind(Integer(1), "y"), Return(p));
  }

  lemma CountOrderedFails(ctx: Ctx, row: Row)
    requires "y" !in ctx.params && row == map["y" := Int(1)]
    ensures ProjectOrAggregate(ctx, CountOrdered(), None, [row]) == Err(UnknownVariable("y"))
  {
    var p := CountOrdered();
    var item := p.items[0];
    CountIsAgg(item);
    assert HasAgg(p.items);
    assert p.items[1..] == [] && [row][1..] == [];
    assert KeyExprs(p.items) == [];
    assert GroupKey(ctx, [], row) == Ok([]);
    assert AddToGroup([], [], row) == [Group([], [row])];
    assert GroupRows(ctx, [], [row], []) == GroupRows(ctx, [], [], [Group([], [row])]);
    CountOne(ctx, item, row);
    assert Columns(ctx, p.items) == ["c"] by { assert Columns(ctx, []) == []; }
    ColumnPass(ctx, p);
  }

  /** `UNWIND 1 AS y RETURN count(*) AS c ORDER BY y`: beside an aggregate only the columns can be ordered by. */
  lemma OrderBesideAggregate(ctx: Ctx)
    requires "y" !in ctx.params
    ensures var cs := [Unwind(Integer(1), "y"), Return(CountOrdered())];
            Accepts(cs, {}) && RunQuery(ctx, cs) == Err(UnknownVariable("y"))
  {
    var row: Row := map["y" := Int(1)];
    CountOrderedAccepted();
    UnwindOne(ctx);
    ThenReturn(ctx, Unwind(Integer(1), "y"), CountOrdered(), [row]);
    CountOrderedFails(ctx, row);
  }

  lemma CountIsAgg(item: Item)
    requires item == Item(Call("count", false, [StarArg]), Some("c"))
    ensures IsAgg(item) && Lower(item.expr.func) == "count"
  {
    assert Lower("count") == "count";
  }

  lemma CountOne(ctx: Ctx, item: Item, row: Row)
    requires item == Item(Call("count", false, [StarArg]), Some("c"))
    ensures GroupResults(ctx, [item], [Group([], [row])]) == Ok([[Int(1)]])
  {
    CountIsAgg(item);
    assert EvalAgg(ctx, item, [row]) == Ok(Int(1));
    assert [item][1..] == [] && [Group([], [row])][1..] == [];
    AppendNothing([Int(1)], Ok([]));
    assert GroupResult(ctx, [item], [], [row]) == Append([Int(1)], GroupResult(ctx, [], [], [row]));
    AppendNothing([[Int(1)]], Ok([]));
    assert GroupResults(ctx, [item], [Group([], [row])]) == Append([[Int(1)]], GroupResults(ctx, [item], []));
  }

  lemma ColumnPass(ctx: Ctx, p: Projection)
    requires "y" !in ctx.params
    requires p.order == [Ordered(Identifier("y"), false, DefaultNulls)] && !p.distinct
    ensures Project(ctx, p.(items := ColumnItems(["c"])), None, Map(ZipFn(["c"]), [[Int(1)]])) ==
            Err(UnknownVariable("y"))
  {
    var items := ColumnItems(["c"]);
    var row: Row := map["c" := Int(1)];
    assert items == [Item(Identifier("c"), None)];
    assert Zip(["c"], [Int(1)]) == row by { assert Zip([], []) == map[]; }
    assert Map(ZipFn(["c"]), [[Int(1)]]) == [row];
    assert items[1..] == [];
    assert Eval(ctx, Identifier("c"), ctx.params + row) == Ok(Int(1));
    assert ProjectRow(ctx, items, row, map[]) == Ok(row);
    var pair := Paired(row, row);
    FlatMapOne(PairFn(ctx, items), row);
    KeepAll(ctx, [pair]);
    var o := p.order[0];
    assert SortValue(ctx, o, pair) == Err(UnknownVariable("y"));
    assert SortValuesOk(ctx, o, [pair]) == Err(UnknownVariable("y"));
    assert p.order[1..] == [];
    assert OrderAll(ctx, [], [pair]) == Ok([pair]);
  }
}
