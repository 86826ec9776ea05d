/** Where the rows of a projection come from. */
module QueryFacts {
  import opened Prelude
  import opened Ast
  import opened Evaluation
  import opened Ordering
  import opened Query

  lemma FailedRun(ctx: Ctx, cs: seq<Clause>, s: Result<State>)
    ensures s.Err? ==> RunClauses(ctx, cs, s) == s
  {
  }

  lemma {:induction false} DedupeFrom<T>(key: T -> Row, xs: seq<T>, seen: set<Row>)
    ensures forall x :: x in Dedupe(key, xs, seen) ==> x in xs
  {
    if xs != [] {
      DedupeFrom(key, xs[1..], if key(xs[0]) in seen then seen else seen + {key(xs[0])});
    }
  }

  lemma {:induction false} FilterRFrom<T>(p: T -> Result<bool>, xs: seq<T>)
    ensures FilterR(p, xs).Ok? ==> forall x :: x in FilterR(p, xs).value ==> x in xs
  {
    if xs != [] { FilterRFrom(p, xs[1..]); }
  }

  lemma {:induction false} KeepAll(ctx: Ctx, ps: seq<Paired>)
    ensures FilterR(ProjPasses(ctx, None), ps) == Ok(ps)
  {
    if ps != [] {
      KeepAll(ctx, ps[1..]);
      assert [ps[0]] + ps[1..] == ps;
    }
  }

  lemma OrderPassFrom<T>(o: Ordered, key: T -> Value, xs: seq<T>)
    requires OrderPass(o, key, xs).Ok?
    ensures forall x :: x in OrderPass(o, key, xs).value ==> x in xs
  {
    SortContents(o.desc, key, Filter(RealKey(key), xs));
    SameElements(StableSort(o.desc, key, Filter(RealKey(key), xs)), Filter(RealKey(key), xs));
  }

  lemma {:induction false} OrderAllFrom(ctx: Ctx, os: seq<Ordered>, ps: seq<Paired>)
    requires OrderAll(ctx, os, ps).Ok?
    ensures forall p :: p in OrderAll(ctx, os, ps).value ==> p in ps
  {
    if os != [] {
      OrderAllFrom(ctx, os[1..], ps);
      OrderPassFrom(os[0], SortKey(ctx, os[0]), OrderAll(ctx, os[1..], ps).value);
    }
  }

  /** DISTINCT, WHERE, ORDER BY, SKIP and LIMIT choose and rearrange rows; they never make new ones. */
  lemma ArrangeFrom(ctx: Ctx, proj: Projection, w: Option<Expr>, ps: seq<Paired>)
    requires Arrange(ctx, proj, w, ps).Ok?
    ensures forall r :: r in Arrange(ctx, proj, w, ps).value ==> exists p :: p in ps && r == p.proj
  {
    var unique := if proj.distinct then Dedupe(PairKey(), ps, {}) else ps;
    DedupeFrom(PairKey(), ps, {});
    FilterRFrom(ProjPasses(ctx, w), unique);
    var kept := FilterR(ProjPasses(ctx, w), unique).value;
    OrderAllFrom(ctx, proj.order, kept);
    var sorted := OrderAll(ctx, proj.order, kept).value;
    var rows := SkipRows(ctx, proj.skip, Map(ProjOf(), sorted)).value;
    forall r | r in Arrange(ctx, proj, w, ps).value ensures exists p :: p in ps && r == p.proj {
      assert r in rows;
      assert r in Map(ProjOf(), sorted);
      var i :| 0 <= i < |sorted| && r == sorted[i].proj;
      assert sorted[i] in kept;
    }
  }

  /** Each output row of a projection is one input row, projected. */
  lemma ProjectFrom(ctx: Ctx, proj: Projection, w: Option<Expr>, rows: seq<Row>)
    requires Project(ctx, proj, w, rows).Ok?
    ensures forall r :: r in Project(ctx, proj, w, rows).value ==>
                          exists row :: row in rows && ProjectRow(ctx, proj.items, row, map[]) == Ok(r)
  {
    var f := PairFn(ctx, proj.items);
    FlatMapOk(f, rows);
    var ps := FlatMapR(f, rows).value;
    ArrangeFrom(ctx, proj, w, ps);
    forall r | r in Project(ctx, proj, w, rows).value
      ensures exists row :: row in rows && ProjectRow(ctx, proj.items, row, map[]) == Ok(r)
    {
      var p :| p in ps && r == p.proj;
      var row :| row in rows && p in f(row).value;
    }
  }

  /** The names a projection certainly defines, and the ones it may define. */
  function ItemNames(ctx: Ctx, items: seq<Item>): set<string> {
    if items == [] then {}
    else (if items[0].Star? then {} else {ProjName(ctx, items[0].expr, items[0].alias)}) + ItemNames(ctx, items[1..])
  }

  lemma {:induction false} ProjectRowKeys(ctx: Ctx, items: seq<Item>, row: Row, acc: Row)
    requires ProjectRow(ctx, items, row, acc).Ok?
    ensures ProjectRow(ctx, items, row, acc).value.Keys ==
            acc.Keys + ItemNames(ctx, items) + (if HasStar(items) then row.Keys else {})
  {
    if items != [] {
      HasStarCons(items);
      if items[0].Star? {
        ProjectRowKeys(ctx, items[1..], row, acc + row);
      } else {
        var name := ProjName(ctx, items[0].expr, items[0].alias);
        ProjectRowKeys(ctx, items[1..], row, acc[name := Eval(ctx, items[0].expr, ctx.params + row).value]);
      }
    }
  }

  lemma {:induction false} ColumnNames(ctx: Ctx, items: seq<Item>)
    ensures forall c :: c in Columns(ctx, items) ==> c in ItemNames(ctx, items) || c == "*"
  {
    if items != [] { ColumnNames(ctx, items[1..]); }
  }

  lemma {:induction false} ZipKeys(cols: seq<string>, vs: seq<Value>)
    ensures forall x :: x in Zip(cols, vs) ==> x in cols
  {
    if cols != [] && vs != [] { ZipKeys(cols[1..], vs[1..]); }
  }

  /** An aggregating projection binds nothing but its columns. */
  lemma AggregateKeys(ctx: Ctx, proj: Projection, w: Option<Expr>, rows: seq<Row>)
    requires HasAgg(proj.items) && ProjectOrAggregate(ctx, proj, w, rows).Ok?
    ensures forall r :: r in ProjectOrAggregate(ctx, proj, w, rows).value ==>
                          forall x :: x in r ==> x in Columns(ctx, proj.items)
  {
    var cols := Columns(ctx, proj.items);
    var lists := AggregateReturn(ctx, proj, rows).value;
    FilterRFrom(Passes(ctx, w), Map(ZipFn(cols), lists));
    forall r | r in ProjectOrAggregate(ctx, proj, w, rows).value ensures forall x :: x in r ==> x in cols {
      assert r in Map(ZipFn(cols), lists);
      var i :| 0 <= i < |lists| && r == Zip(cols, lists[i]);
      ZipKeys(cols, lists[i]);
    }
  }
}
