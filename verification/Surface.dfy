/** Queries with the surface clauses LET, FILTER and FOR and inline predicates, and the same queries lowered. */
module Surface {
  import opened Prelude
  import opened Ast
  import opened Evaluation
  import opened Matcher
  import opened Query
  import F = QueryFacts
  import H = Hoist
  import C = HoistClause
  import S = Compose

  datatype LetItem = LetItem(name: string, expr: Expr)
  datatype FilterItem = FilterItem(name: string, pred: Expr)

  datatype SurfaceClause =
    | Core(clause: Clause)
    | LetClause(bindings: seq<LetItem>)
    | FilterClause(tests: seq<FilterItem>)
    | ForClause(expr: Expr, alias: string)

  // ---- what the surface clauses mean ------------------------------------------------------------------

  /** LET extends one row by each name in turn; a later item sees the earlier ones. */
  function LetRow(ctx: Ctx, items: seq<LetItem>, row: Row): Result<Row>
    decreases |items|
  {
    if items == [] then Ok(row)
    else
      match Eval(ctx, items[0].expr, ctx.params + row)
      case Err(e) => Err(e)
      case Ok(v) => LetRow(ctx, items[1..], row[items[0].name := v])
  }

  function LetFn(ctx: Ctx, items: seq<LetItem>): Row -> Result<seq<Row>> {
    (row: Row) => match LetRow(ctx, items, row) case Err(e) => Err(e) case Ok(r) => Ok([r])
  }

  /** FILTER keeps the rows that pass the first predicate, of these the ones that pass the next, and so on. */
  function FilterRows(ctx: Ctx, items: seq<FilterItem>, rows: seq<Row>): Result<seq<Row>>
    decreases |items|
  {
    if items == [] then Ok(rows)
    else
      match FilterR(Passes(ctx, Some(items[0].pred)), rows)
      case Err(e) => Err(e)
      case Ok(kept) => FilterRows(ctx, items[1..], kept)
  }

  /** Inline predicates are tested as their elements are bound. */
  function RunSurface(ctx: Ctx, c: SurfaceClause, s: State): Result<State> {
    match c
    case Core(Match(pattern, optional, w)) => OnRows(s, MatchClause(ctx, true, pattern, optional, w, s.rows))
    case Core(d) => RunClause(ctx, d, s)
    case LetClause(items) => OnRows(s, FlatMapR(LetFn(ctx, items), s.rows))
    case FilterClause(items) => OnRows(s, FilterRows(ctx, items, s.rows))
    case ForClause(e, x) => OnRows(s, FlatMapR(UnwindFn(ctx, e, x), s.rows))
  }

  function RunSurfaces(ctx: Ctx, cs: seq<SurfaceClause>, s: Result<State>): Result<State> {
    if cs == [] || s.Err? then s else RunSurfaces(ctx, cs[1..], RunSurface(ctx, cs[0], s.value))
  }

  function RunSurfaceQuery(ctx: Ctx, cs: seq<SurfaceClause>): Result<seq<Row>> {
    match RunSurfaces(ctx, cs, Ok(State([map[]], [])))
    case Err(e) => Err(e)
    case Ok(s) => Ok(s.result)
  }

  // ---- lowering ------------------------------------------------------------------------------------------

  function Bare(items: seq<Item>): Projection {
    Projection(items, false, [], None, None)
  }

  function WithItem(): LetItem -> Clause {
    (item: LetItem) => With(Bare([Star, Item(item.expr, Some(item.name))]), None)
  }

  function TestsOf(items: seq<FilterItem>): seq<Expr> {
    if items == [] then [] else [items[0].pred] + TestsOf(items[1..])
  }

  /** The identifiers an expression mentions. */
  function Mentioned(e: Expr): set<string>
    decreases e
  {
    match e
    case Identifier(x) => {x} - {""}
    case Property(o, _) => Mentioned(o)
    case ListLit(es) => MentionedAll(es)
    case Binary(_, l, r) => Mentioned(l) + Mentioned(r)
    case Not(a) => Mentioned(a)
    case Neg(a) => Mentioned(a)
    case IsNull(a, _) => Mentioned(a)
    case Subscript(b, i) => Mentioned(b) + Mentioned(i)
    case Slice(b, s, n) => Mentioned(b) + MentionedOpt(s) + MentionedOpt(n)
    case Call(_, _, es) => MentionedAll(es)
    case Coalesce(es) => MentionedAll(es)
    case _ => {}
  }

  function MentionedAll(es: seq<Expr>): set<string>
    decreases es
  {
    if es == [] then {} else Mentioned(es[0]) + MentionedAll(es[1..])
  }

  function MentionedOpt(o: Option<Expr>): set<string>
    decreases o
  {
    if o.Some? then Mentioned(o.value) else {}
  }

  predicate TestsOwnNames(items: seq<FilterItem>) {
    items == [] || (items[0].name in Mentioned(items[0].pred) && TestsOwnNames(items[1..]))
  }

  function HoistIn(c: Clause): Clause {
    if c.Match? then Match(H.StripPattern(c.pattern), c.optional, H.HoistedWhere(c.pattern, c.where)) else c
  }

  /** The core clauses of a surface clause, unless the pass rejects it. */
  function LowerClause(c: SurfaceClause): Option<seq<Clause>> {
    match c
    case Core(d) => if d.Match? && !H.AllHoistable(d.pattern) then None else Some([HoistIn(d)])
    case LetClause(items) => if items == [] then None else Some(Map(WithItem(), items))
    case FilterClause(items) =>
      if TestsOwnNames(items) then Some([With(Bare([Star]), H.WhereFrom(TestsOf(items)))]) else None
    case ForClause(e, x) => Some([Unwind(e, x)])
  }

  function LowerClauses(cs: seq<SurfaceClause>): Option<seq<Clause>> {
    if cs == [] then Some([])
    else
      match (LowerClause(cs[0]), LowerClauses(cs[1..]))
      case (Some(ds), Some(rest)) => Some(ds + rest)
      case _ => None
  }

  // ---- WITH * -----------------------------------------------------------------------------------------------

  function Projected(ps: Result<seq<Paired>>): Result<seq<Row>> {
    if ps.Err? then Err(ps.error) else Ok(Map(ProjOf(), ps.value))
  }

  lemma BareProject(ctx: Ctx, items: seq<Item>, w: Option<Expr>, rows: seq<Row>)
    requires FlatMapR(PairFn(ctx, items), rows).Ok?
    ensures Project(ctx, Bare(items), w, rows) ==
            Projected(FilterR(ProjPasses(ctx, w), FlatMapR(PairFn(ctx, items), rows).value))
  {
  }

  /** `WITH *, e AS x` gives each row that one name. */
  lemma {:induction false} LetPairs(ctx: Ctx, item: LetItem, rows: seq<Row>)
    ensures FlatMapR(LetFn(ctx, [item]), rows) == Projected(FlatMapR(PairFn(ctx, WithItem()(item).proj.items), rows))
  {
    if rows != [] {
      LetPairs(ctx, item, rows[1..]);
      LetOne(ctx, item, rows[0]);
      var f := PairFn(ctx, WithItem()(item).proj.items);
      if f(rows[0]).Ok? && FlatMapR(f, rows[1..]).Ok? {
        MapAppend(ProjOf(), f(rows[0]).value, FlatMapR(f, rows[1..]).value);
        assert Map(ProjOf(), f(rows[0]).value) == [f(rows[0]).value[0].proj];
      }
    }
  }

  lemma LetOne(ctx: Ctx, item: LetItem, row: Row)
    ensures var pair, after := PairFn(ctx, WithItem()(item).proj.items)(row), LetRow(ctx, [item], row);
            if after.Err? then pair == Err(after.error) else pair == Ok([Paired(row, after.value)])
  {
    var items := WithItem()(item).proj.items;
    assert items[1..] == [items[1]] && [items[1]][1..] == [] && [item][1..] == [];
    assert map[] + row == row;
    assert ProjectRow(ctx, items, row, map[]) == ProjectRow(ctx, [items[1]], row, row);
    LetStep(ctx, [item], row);
    var v := Eval(ctx, item.expr, ctx.params + row);
    if v.Ok? {
      var r := row[item.name := v.value];
      assert ProjectRow(ctx, [items[1]], row, row) == ProjectRow(ctx, [], row, r) == Ok(r);
      assert LetRow(ctx, [], r) == Ok(r);
    }
  }

  lemma LetStep(ctx: Ctx, items: seq<LetItem>, row: Row)
    requires items != []
    ensures var v := Eval(ctx, items[0].expr, ctx.params + row);
            LetRow(ctx, items, row) ==
            if v.Err? then Err(v.error) else LetRow(ctx, items[1..], row[items[0].name := v.value])
  {
  }

  lemma LetClauseRuns(ctx: Ctx, item: LetItem, s: State)
    requires !IsAgg(Item(item.expr, Some(item.name)))
    ensures RunClause(ctx, WithItem()(item), s) == OnRows(s, FlatMapR(LetFn(ctx, [item]), s.rows))
  {
    var items := WithItem()(item).proj.items;
    assert !HasAgg(items);
    LetPairs(ctx, item, s.rows);
    var ps := FlatMapR(PairFn(ctx, items), s.rows);
    if ps.Ok? {
      F.KeepAll(ctx, ps.value);
      BareProject(ctx, items, None, s.rows);
    }
  }

  lemma LetThen(ctx: Ctx, items: seq<LetItem>, row: Row)
    requires items != []
    ensures Agree(LetFn(ctx, items)(row), Then(LetFn(ctx, [items[0]])(row), LetFn(ctx, items[1..])))
  {
    assert [items[0]][1..] == [];
    LetStep(ctx, items, row);
    LetStep(ctx, [items[0]], row);
    var v := Eval(ctx, items[0].expr, ctx.params + row);
    if v.Ok? {
      var r := row[items[0].name := v.value];
      assert LetRow(ctx, [], r) == Ok(r);
      FlatMapOne(LetFn(ctx, items[1..]), r);
    }
  }

  /** One WITH per item, over the whole table, is LET row by row. */
  lemma {:induction false} LetKeeps(ctx: Ctx, items: seq<LetItem>, s: State)
    requires forall i :: 0 <= i < |items| ==> !IsAgg(Item(items[i].expr, Some(items[i].name)))
    ensures Agree(OnRows(s, FlatMapR(LetFn(ctx, items), s.rows)), RunClauses(ctx, Map(WithItem(), items), Ok(s)))
    decreases |items|
  {
    var f := LetFn(ctx, items);
    if items == [] {
      LetNothing(ctx, s.rows);
    } else {
      var g, h := LetFn(ctx, [items[0]]), LetFn(ctx, items[1..]);
      forall row | row in s.rows ensures Agree(f(row), Then(g(row), h)) { LetThen(ctx, items, row); }
      FlatMapAssoc(g, h, f, s.rows);
      LetClauseRuns(ctx, items[0], s);
      assert Map(WithItem(), items)[1..] == Map(WithItem(), items[1..]);
      if FlatMapR(g, s.rows).Ok? {
        LetKeeps(ctx, items[1..], s.(rows := FlatMapR(g, s.rows).value));
      }
    }
  }

  lemma {:induction false} LetNothing(ctx: Ctx, rows: seq<Row>)
    ensures FlatMapR(LetFn(ctx, []), rows) == Ok(rows)
  {
    if rows != [] {
      LetNothing(ctx, rows[1..]);
      assert [rows[0]] + rows[1..] == rows;
    }
  }

  // ---- WITH * WHERE ----------------------------------------------------------------------------------------

  lemma {:induction false} StarPairs(ctx: Ctx, w: Option<Expr>, rows: seq<Row>)
    ensures FlatMapR(PairFn(ctx, [Star]), rows).Ok?
    ensures FilterR(Passes(ctx, w), rows) ==
            Projected(FilterR(ProjPasses(ctx, w), FlatMapR(PairFn(ctx, [Star]), rows).value))
  {
    if rows != [] {
      StarOne(ctx, rows[0]);
      StarPairs(ctx, w, rows[1..]);
      var p, rest := Paired(rows[0], rows[0]), FlatMapR(PairFn(ctx, [Star]), rows[1..]).value;
      assert ([p] + rest)[1..] == rest && ([p] + rest)[0] == p;
      assert FlatMapR(PairFn(ctx, [Star]), rows).value == [p] + rest;
      var kept, keep := FilterR(ProjPasses(ctx, w), rest), TestWhere(ctx, w, rows[0]);
      if kept.Ok? && keep.Ok? {
        var more := if keep.value then [p] else [];
        assert FilterR(ProjPasses(ctx, w), [p] + rest) == Ok(more + kept.value);
        MapAppend(ProjOf(), more, kept.value);
        assert Map(ProjOf(), more) == if keep.value then [rows[0]] else [];
      }
    }
  }

  lemma StarOne(ctx: Ctx, row: Row)
    ensures PairFn(ctx, [Star])(row) == Ok([Paired(row, row)])
  {
    assert [Star][1..] == [] && map[] + row == row;
    assert ProjectRow(ctx, [Star], row, map[]) == ProjectRow(ctx, [], row, row);
  }

  lemma StarWhereRuns(ctx: Ctx, w: Option<Expr>, s: State)
    ensures RunClause(ctx, With(Bare([Star]), w), s) == OnRows(s, FilterR(Passes(ctx, w), s.rows))
  {
    assert !HasAgg([Star]);
    StarPairs(ctx, w, s.rows);
    BareProject(ctx, [Star], w, s.rows);
  }

  /** A conjunction that evaluates has operands that do. */
  lemma {:induction false} AndEvaluates(ctx: Ctx, acc: Expr, preds: seq<Expr>, row: Row)
    requires TestWhere(ctx, Some(H.AndOnto(acc, preds)), row).Ok?
    ensures TestWhere(ctx, Some(acc), row).Ok?
    ensures forall i :: 0 <= i < |preds| ==> TestWhere(ctx, Some(preds[i]), row).Ok?
    decreases |preds|
  {
    if preds != [] {
      AndEvaluates(ctx, Binary(AndOp, acc, preds[0]), preds[1..], row);
      H.OneAnd(ctx, acc, preds[0], row);
      assert preds == [preds[0]] + preds[1..];
    }
  }

  ghost predicate AllEvaluate(ctx: Ctx, preds: seq<Expr>, rows: seq<Row>) {
    forall i, row :: 0 <= i < |preds| && row in rows ==> TestWhere(ctx, Some(preds[i]), row).Ok?
  }

  lemma {:induction false} FilterInTurn(ctx: Ctx, items: seq<FilterItem>, rows: seq<Row>)
    requires AllEvaluate(ctx, TestsOf(items), rows)
    ensures FilterRows(ctx, items, rows) == Ok(Filter(H.AllHoldFn(ctx, TestsOf(items)), rows))
    decreases |items|
  {
    var all := H.AllHoldFn(ctx, TestsOf(items));
    if items == [] {
      FilterAll(all, rows);
    } else {
      var p, later := Some(items[0].pred), H.AllHoldFn(ctx, TestsOf(items[1..]));
      assert TestsOf(items)[0] == items[0].pred && TestsOf(items)[1..] == TestsOf(items[1..]);
      FilterROk(Passes(ctx, p), HoldsFn(ctx, p), rows);
      var kept := Filter(HoldsFn(ctx, p), rows);
      assert AllEvaluate(ctx, TestsOf(items[1..]), kept) by {
        forall i, row | 0 <= i < |TestsOf(items[1..])| && row in kept
          ensures TestWhere(ctx, Some(TestsOf(items[1..])[i]), row).Ok?
        {
          assert TestsOf(items)[i + 1] == TestsOf(items[1..])[i];
        }
      }
      FilterInTurn(ctx, items[1..], kept);
      forall row: Row | row in rows ensures all(row) == (HoldsFn(ctx, p)(row) && later(row)) {
        H.AllHoldConcat(ctx, [items[0].pred], TestsOf(items[1..]), row);
        assert H.AllHold(ctx, [items[0].pred], row) <==> Holds(ctx, p, row);
      }
      FilterFilter(HoldsFn(ctx, p), later, all, rows);
    }
  }

  /** When the conjunction evaluates on every row, FILTER keeps the rows it is true of. */
  lemma FilterKeeps(ctx: Ctx, items: seq<FilterItem>, rows: seq<Row>)
    requires FilterR(Passes(ctx, H.WhereFrom(TestsOf(items))), rows).Ok?
    ensures FilterRows(ctx, items, rows) == FilterR(Passes(ctx, H.WhereFrom(TestsOf(items))), rows)
  {
    var preds := TestsOf(items);
    var w := H.WhereFrom(preds);
    FilterROk(Passes(ctx, w), HoldsFn(ctx, w), rows);
    forall row: Row | row in rows
      ensures HoldsFn(ctx, w)(row) == H.AllHoldFn(ctx, preds)(row)
      ensures forall i :: 0 <= i < |preds| ==> TestWhere(ctx, Some(preds[i]), row).Ok?
    {
      H.WhereHolds(ctx, preds, row);
      if preds != [] {
        AndEvaluates(ctx, preds[0], preds[1..], row);
        assert preds == [preds[0]] + preds[1..];
      }
    }
    FilterInTurn(ctx, items, rows);
    FilterExt(HoldsFn(ctx, w), H.AllHoldFn(ctx, preds), rows);
  }

  // ---- whole queries ------------------------------------------------------------------------------------------

  /** LET binds no aggregate, and inline predicates are settled when they are tested. */
  ghost predicate SurfaceSafe(c: SurfaceClause) {
    match c
    case Core(d) => d.Match? ==> C.HoistSafe(d.pattern)
    case LetClause(items) => forall i :: 0 <= i < |items| ==> !IsAgg(Item(items[i].expr, Some(items[i].name)))
    case _ => true
  }

  lemma OneClause(ctx: Ctx, c: Clause, s: State)
    ensures RunClauses(ctx, [c], Ok(s)) == RunClause(ctx, c, s)
  {
    assert [c][1..] == [];
    assert RunClauses(ctx, [], RunClause(ctx, c, s)) == RunClause(ctx, c, s);
  }

  lemma ClauseKeeps(ctx: Ctx, c: SurfaceClause, s: State)
    requires LowerClause(c).Some? && SurfaceSafe(c)
    requires RunSurface(ctx, c, s).Ok? && RunClauses(ctx, LowerClause(c).value, Ok(s)).Ok?
    ensures RunClauses(ctx, LowerClause(c).value, Ok(s)) == RunSurface(ctx, c, s)
  {
    match c
    case Core(d) =>
      OneClause(ctx, HoistIn(d), s);
      if d.Match? { C.HoistKeepsClause(ctx, d.pattern, d.optional, d.where, s.rows); }
    case LetClause(items) => LetKeeps(ctx, items, s);
    case FilterClause(items) =>
      var w := H.WhereFrom(TestsOf(items));
      OneClause(ctx, With(Bare([Star]), w), s);
      StarWhereRuns(ctx, w, s);
      FilterKeeps(ctx, items, s.rows);
    case ForClause(e, x) => OneClause(ctx, Unwind(e, x), s);
  }

  lemma {:induction false} LoweredRun(ctx: Ctx, cs: seq<SurfaceClause>, s: State)
    requires LowerClauses(cs).Some? && forall c :: c in cs ==> SurfaceSafe(c)
    requires RunSurfaces(ctx, cs, Ok(s)).Ok? && RunClauses(ctx, LowerClauses(cs).value, Ok(s)).Ok?
    ensures RunClauses(ctx, LowerClauses(cs).value, Ok(s)) == RunSurfaces(ctx, cs, Ok(s))
    decreases cs
  {
    if cs != [] {
      var ds, rest := LowerClause(cs[0]).value, LowerClauses(cs[1..]).value;
      S.RunConcat(ctx, ds, rest, Ok(s));
      var mid := RunClauses(ctx, ds, Ok(s));
      F.FailedRun(ctx, rest, mid);
      assert cs[0] in cs;
      ClauseKeeps(ctx, cs[0], s);
      LoweredRun(ctx, cs[1..], mid.value);
    }
  }

  /** A query and its lowering, when neither fails, have the same result, rows in order. */
  lemma LoweringKeepsQuery(ctx: Ctx, cs: seq<SurfaceClause>)
    requires LowerClauses(cs).Some? && forall c :: c in cs ==> SurfaceSafe(c)
    requires RunSurfaceQuery(ctx, cs).Ok? && RunQuery(ctx, LowerClauses(cs).value).Ok?
    ensures RunQuery(ctx, LowerClauses(cs).value) == RunSurfaceQuery(ctx, cs)
  {
    LoweredRun(ctx, cs, State([map[]], []));
  }
}
