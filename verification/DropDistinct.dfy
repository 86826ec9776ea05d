/** DISTINCT beside an aggregate is redundant: the rows of an aggregation already differ in their keys. */
module DropDistinct {
  import opened Prelude
  import opened Ast
  import opened Evaluation
  import opened Query
  import opened QueryFacts
  import opened Grouping

  // ---- the rewrite ---------------------------------------------------------------------------

  /** The aggregates the rewrite looks for; the executor groups on a few more. */
  const PLAIN_AGGREGATES: set<string> := {"count", "sum", "avg", "min", "max", "collect"}

  predicate IsPlainAgg(item: Item) {
    item.Item? && item.expr.Call? && Lower(item.expr.func) in PLAIN_AGGREGATES
  }

  predicate HasPlainAgg(items: seq<Item>) {
    exists i :: 0 <= i < |items| && IsPlainAgg(items[i])
  }

  function DropIn(p: Projection): Projection {
    if p.distinct && HasPlainAgg(p.items) then p.(distinct := false) else p
  }

  function DropClause(c: Clause): Clause {
    match c
    case With(p, w) => With(DropIn(p), w)
    case Return(p) => Return(DropIn(p))
    case _ => c
  }

  function DropAll(cs: seq<Clause>): seq<Clause> {
    if cs == [] then [] else [DropClause(cs[0])] + DropAll(cs[1..])
  }

  // ---- result rows carry their keys -------------------------------------------------------------

  /** The entries of a result row that are not aggregates. */
  function KeyPart(items: seq<Item>, vs: seq<Value>): seq<Value>
    requires |vs| == |items|
  {
    if items == [] then []
    else (if IsAgg(items[0]) then [] else [vs[0]]) + KeyPart(items[1..], vs[1..])
  }

  lemma {:induction false} ResultHoldsKey(ctx: Ctx, items: seq<Item>, key: seq<Value>, rows: seq<Row>)
    requires GroupResult(ctx, items, key, rows).Ok? && |key| == |KeyExprs(items)|
    ensures |GroupResult(ctx, items, key, rows).value| == |items|
    ensures KeyPart(items, GroupResult(ctx, items, key, rows).value) == key
  {
    if items != [] {
      var vs := GroupResult(ctx, items, key, rows).value;
      if IsAgg(items[0]) {
        ResultHoldsKey(ctx, items[1..], key, rows);
        assert vs[1..] == GroupResult(ctx, items[1..], key, rows).value;
      } else {
        ResultHoldsKey(ctx, items[1..], key[1..], rows);
        assert vs[1..] == GroupResult(ctx, items[1..], key[1..], rows).value;
        assert key == [key[0]] + key[1..];
      }
    }
  }

  /** A frozen value stays as it is when frozen again. */
  ghost predicate Frozen(vs: seq<Value>) {
    FreezeAll(vs) == vs
  }

  lemma {:induction false} FreezeTwice(vs: seq<Value>)
    ensures Frozen(FreezeAll(vs))
  {
    if vs != [] { FreezeTwice(vs[1..]); }
  }

  lemma GroupKeysFrozen(ctx: Ctx, keys: seq<Expr>, rows: seq<Row>)
    requires GroupRows(ctx, keys, rows, []).Ok?
    ensures forall g :: g in GroupRows(ctx, keys, rows, []).value ==> Frozen(g.key) && |g.key| == |keys|
  {
    var gs, k := GroupRows(ctx, keys, rows, []).value, KeyOf(ctx, keys);
    GroupRowsGroups(ctx, keys, rows);
    forall g | g in gs ensures Frozen(g.key) && |g.key| == |keys| {
      assert IsGroup(k, rows, g);
      assert g.rows[0] in g.rows;
      AllKeysOk(ctx, keys, rows, []);
      var vs := EvalAll(ctx, keys, ctx.params + g.rows[0]).value;
      EvalAllAt(ctx, keys, ctx.params + g.rows[0]);
      FreezeTwice(vs);
    }
  }

  lemma {:induction false} AllKeysOk(ctx: Ctx, keys: seq<Expr>, rows: seq<Row>, gs: seq<Group>)
    requires GroupRows(ctx, keys, rows, gs).Ok?
    ensures forall row :: row in rows ==> GroupKey(ctx, keys, row).Ok?
    decreases rows
  {
    if rows != [] {
      AllKeysOk(ctx, keys, rows[1..], AddToGroup(gs, GroupKey(ctx, keys, rows[0]).value, rows[0]));
      assert rows == [rows[0]] + rows[1..];
    }
  }

  lemma {:induction false} ResultsOf(ctx: Ctx, items: seq<Item>, gs: seq<Group>)
    requires GroupResults(ctx, items, gs).Ok?
    ensures var rs := GroupResults(ctx, items, gs).value;
            |rs| == |gs| && forall i :: 0 <= i < |gs| ==> GroupResult(ctx, items, gs[i].key, gs[i].rows) == Ok(rs[i])
  {
    if gs != [] { ResultsOf(ctx, items, gs[1..]); }
  }

  // ---- rows and columns --------------------------------------------------------------------------

  /** Columns of one name hold one value. */
  ghost predicate Agrees(cols: seq<string>, vs: seq<Value>) {
    |vs| == |cols| && forall i, j :: 0 <= i < j < |cols| && cols[i] == cols[j] ==> vs[i] == vs[j]
  }

  ghost predicate AllAgree(cols: seq<string>, lists: seq<seq<Value>>) {
    forall l :: l in lists ==> Agrees(cols, l)
  }

  lemma {:induction false} ZipAt(cols: seq<string>, vs: seq<Value>)
    requires Agrees(cols, vs)
    ensures forall x :: x in Zip(cols, vs) <==> x in cols
    ensures forall i :: 0 <= i < |cols| ==> cols[i] in Zip(cols, vs) && Zip(cols, vs)[cols[i]] == vs[i]
  {
    if cols != [] {
      forall i, j | 0 <= i < j < |cols[1..]| && cols[1..][i] == cols[1..][j] ensures vs[1..][i] == vs[1..][j] {
        assert cols[i + 1] == cols[j + 1];
      }
      ZipAt(cols[1..], vs[1..]);
      assert cols == [cols[0]] + cols[1..];
      forall i | 0 < i < |cols| ensures cols[i] in Zip(cols, vs) && Zip(cols, vs)[cols[i]] == vs[i] {
        assert cols[i] == cols[1..][i - 1];
      }
      if cols[0] in cols[1..] {
        var j :| 0 <= j < |cols[1..]| && cols[1..][j] == cols[0];
        assert cols[j + 1] == cols[0];
      }
    }
  }

  lemma UnzipZip(cols: seq<string>, vs: seq<Value>)
    requires Agrees(cols, vs)
    ensures Unzip(cols, Zip(cols, vs)) == vs
  {
    ZipAt(cols, vs);
  }

  lemma {:induction false} ProjectColumns(ctx: Ctx, cols: seq<string>, row: Row, acc: Row)
    requires forall c :: c in cols ==> c in row
    ensures var r := ProjectRow(ctx, ColumnItems(cols), row, acc);
            && r.Ok?
            && (forall x :: x in r.value <==> x in acc || x in cols)
            && (forall x :: x in r.value ==> r.value[x] == if x in cols then row[x] else acc[x])
    decreases cols
  {
    if cols != [] {
      assert ColumnItems(cols)[1..] == ColumnItems(cols[1..]);
      assert Eval(ctx, Identifier(cols[0]), ctx.params + row) == Ok(row[cols[0]]);
      ProjectColumns(ctx, cols[1..], row, acc[cols[0] := row[cols[0]]]);
    }
  }

  function Twin(): Row -> Paired {
    (row: Row) => Paired(row, row)
  }

  lemma ProjectSelf(ctx: Ctx, cols: seq<string>, vs: seq<Value>)
    requires Agrees(cols, vs)
    ensures ProjectRow(ctx, ColumnItems(cols), Zip(cols, vs), map[]) == Ok(Zip(cols, vs))
  {
    ZipAt(cols, vs);
    ProjectColumns(ctx, cols, Zip(cols, vs), map[]);
    assert ProjectRow(ctx, ColumnItems(cols), Zip(cols, vs), map[]).value == Zip(cols, vs);
  }

  lemma MapCons<T, U>(f: T -> U, xs: seq<T>)
    requires xs != []
    ensures Map(f, xs)[1..] == Map(f, xs[1..]) && Map(f, xs) == [f(xs[0])] + Map(f, xs[1..])
  {
  }

  /** Projecting an aggregated table onto its own columns changes nothing. */
  lemma {:induction false} PairsOf(ctx: Ctx, cols: seq<string>, lists: seq<seq<Value>>)
    requires AllAgree(cols, lists)
    ensures FlatMapR(PairFn(ctx, ColumnItems(cols)), Map(ZipFn(cols), lists)) ==
            Ok(Map(Twin(), Map(ZipFn(cols), lists)))
  {
    if lists != [] {
      ProjectSelf(ctx, cols, lists[0]);
      PairsOf(ctx, cols, lists[1..]);
      MapCons(ZipFn(cols), lists);
      MapCons(Twin(), Map(ZipFn(cols), lists));
    }
  }

  // ---- no two result rows are equal ----------------------------------------------------------------

  lemma {:induction false} DedupeNothing<T>(key: T -> Row, xs: seq<T>, seen: set<Row>)
    requires forall i :: 0 <= i < |xs| ==> key(xs[i]) !in seen
    requires forall i, j :: 0 <= i < j < |xs| ==> key(xs[i]) != key(xs[j])
    ensures Dedupe(key, xs, seen) == xs
  {
    if xs != [] {
      DedupeNothing(key, xs[1..], seen + {key(xs[0])});
      assert xs == [xs[0]] + xs[1..];
    }
  }

  ghost predicate SameEntries(a: seq<Value>, b: seq<Value>) {
    |a| == |b| && forall i :: 0 <= i < |a| ==> Norm(Freeze(a[i])) == Norm(Freeze(b[i]))
  }

  lemma EqualRows(cols: seq<string>, a: seq<Value>, b: seq<Value>)
    requires Agrees(cols, a) && Agrees(cols, b)
    requires RowKey(Zip(cols, a)) == RowKey(Zip(cols, b))
    ensures SameEntries(a, b)
  {
    ZipAt(cols, a);
    ZipAt(cols, b);
    forall i | 0 <= i < |a| ensures Norm(Freeze(a[i])) == Norm(Freeze(b[i])) {
      assert RowKey(Zip(cols, a))[cols[i]] == Norm(Freeze(a[i]));
      assert RowKey(Zip(cols, b))[cols[i]] == Norm(Freeze(b[i]));
    }
  }

  lemma FreezeCons(v: Value, vs: seq<Value>)
    ensures NormAll(FreezeAll([v] + vs)) == [Norm(Freeze(v))] + NormAll(FreezeAll(vs))
  {
    assert ([v] + vs)[1..] == vs;
    assert FreezeAll([v] + vs)[1..] == FreezeAll(vs);
  }

  lemma {:induction false} EqualKeyParts(items: seq<Item>, a: seq<Value>, b: seq<Value>)
    requires |a| == |items| && SameEntries(a, b)
    ensures NormAll(FreezeAll(KeyPart(items, a))) == NormAll(FreezeAll(KeyPart(items, b)))
  {
    if items != [] {
      EqualKeyParts(items[1..], a[1..], b[1..]);
      if IsAgg(items[0]) {
        assert [] + KeyPart(items[1..], a[1..]) == KeyPart(items[1..], a[1..]);
        assert [] + KeyPart(items[1..], b[1..]) == KeyPart(items[1..], b[1..]);
      } else {
        FreezeCons(a[0], KeyPart(items[1..], a[1..]));
        FreezeCons(b[0], KeyPart(items[1..], b[1..]));
      }
    }
  }

  /** What a projection item computes. */
  function ItemExpr(item: Item): Expr {
    if item.Star? then StarArg else item.expr
  }

  /** Items that share a column name have the same expression. */
  ghost predicate NamesAgree(ctx: Ctx, items: seq<Item>) {
    var cols := Columns(ctx, items);
    forall i, j :: 0 <= i < j < |items| && cols[i] == cols[j] ==> ItemExpr(items[i]) == ItemExpr(items[j])
  }

  /** The entry of a result row for one item: the aggregate over the group, or the frozen value of a key. */
  ghost predicate IsEntry(ctx: Ctx, item: Item, env: Row, rows: seq<Row>, v: Value) {
    if IsAgg(item) then EvalAgg(ctx, item, rows) == Ok(v)
    else Eval(ctx, ItemExpr(item), env).Ok? && v == Freeze(Eval(ctx, ItemExpr(item), env).value)
  }

  lemma {:induction false} ResultEntries(ctx: Ctx, items: seq<Item>, env: Row, rows: seq<Row>)
    requires EvalAll(ctx, KeyExprs(items), env).Ok?
    requires GroupResult(ctx, items, FreezeAll(EvalAll(ctx, KeyExprs(items), env).value), rows).Ok?
    ensures var vs := GroupResult(ctx, items, FreezeAll(EvalAll(ctx, KeyExprs(items), env).value), rows).value;
            |vs| == |items| && forall i :: 0 <= i < |items| ==> IsEntry(ctx, items[i], env, rows, vs[i])
  {
    if items != [] {
      var keys := KeyExprs(items);
      var key := FreezeAll(EvalAll(ctx, keys, env).value);
      var vs := GroupResult(ctx, items, key, rows).value;
      if !IsAgg(items[0]) {
        assert keys[0] == ItemExpr(items[0]) && keys[1..] == KeyExprs(items[1..]);
        EvalAllFirst(ctx, keys, env);
        assert key[0] == Freeze(Eval(ctx, keys[0], env).value);
        assert key[1..] == FreezeAll(EvalAll(ctx, keys[1..], env).value);
      }
      ResultEntries(ctx, items[1..], env, rows);
      var rest := GroupResult(ctx, items[1..], FreezeAll(EvalAll(ctx, KeyExprs(items[1..]), env).value), rows).value;
      assert vs == [vs[0]] + rest;
      forall i | 0 <= i < |items| ensures IsEntry(ctx, items[i], env, rows, vs[i]) {
        if i > 0 { assert items[i] == items[1..][i - 1] && vs[i] == rest[i - 1]; }
      }
    }
  }

  lemma EvalAllFirst(ctx: Ctx, es: seq<Expr>, env: Row)
    requires es != [] && EvalAll(ctx, es, env).Ok?
    ensures Eval(ctx, es[0], env).Ok? && EvalAll(ctx, es[1..], env).Ok?
    ensures EvalAll(ctx, es, env).value == [Eval(ctx, es[0], env).value] + EvalAll(ctx, es[1..], env).value
  {
  }

  /** The same expression has the same entry. */
  lemma SameEntry(ctx: Ctx, a: Item, b: Item, env: Row, rows: seq<Row>, v: Value, w: Value)
    requires ItemExpr(a) == ItemExpr(b) && IsEntry(ctx, a, env, rows, v) && IsEntry(ctx, b, env, rows, w)
    ensures v == w
  {
  }

  /** In each result row, columns of one name hold one value. */
  lemma ResultsAgree(ctx: Ctx, items: seq<Item>, rows: seq<Row>)
    requires NamesAgree(ctx, items) && GroupRows(ctx, KeyExprs(items), rows, []).Ok?
    requires GroupResults(ctx, items, GroupRows(ctx, KeyExprs(items), rows, []).value).Ok?
    ensures var rs := GroupResults(ctx, items, GroupRows(ctx, KeyExprs(items), rows, []).value).value;
            AllAgree(Columns(ctx, items), rs)
  {
    var gs := GroupRows(ctx, KeyExprs(items), rows, []).value;
    var rs, cols := GroupResults(ctx, items, gs).value, Columns(ctx, items);
    ResultsOf(ctx, items, gs);
    forall l | l in rs ensures Agrees(cols, l) {
      var k :| 0 <= k < |rs| && rs[k] == l;
      var row := GroupRow(ctx, KeyExprs(items), rows, k);
      var env := ctx.params + row;
      ResultEntries(ctx, items, env, gs[k].rows);
      forall i, j | 0 <= i < j < |cols| && cols[i] == cols[j] ensures l[i] == l[j] {
        SameEntry(ctx, items[i], items[j], env, gs[k].rows, l[i], l[j]);
      }
    }
  }

  /** The key of a group is the key of its first row. */
  lemma GroupRow(ctx: Ctx, keys: seq<Expr>, rows: seq<Row>, k: nat) returns (row: Row)
    requires GroupRows(ctx, keys, rows, []).Ok? && k < |GroupRows(ctx, keys, rows, []).value|
    ensures GroupKey(ctx, keys, row) == Ok(GroupRows(ctx, keys, rows, []).value[k].key)
  {
    var gs := GroupRows(ctx, keys, rows, []).value;
    GroupRowsGroups(ctx, keys, rows);
    assert gs[k] in gs;
    assert IsGroup(KeyOf(ctx, keys), rows, gs[k]);
    row := gs[k].rows[0];
    assert row in gs[k].rows;
    AllKeysOk(ctx, keys, rows, []);
  }

  /** Rows of different groups differ as DISTINCT compares them. */
  lemma ResultsDiffer(ctx: Ctx, items: seq<Item>, rows: seq<Row>, i: nat, j: nat)
    requires GroupRows(ctx, KeyExprs(items), rows, []).Ok?
    requires var gs := GroupRows(ctx, KeyExprs(items), rows, []).value;
             i < j < |gs| && GroupResults(ctx, items, gs).Ok?
                 && AllAgree(Columns(ctx, items), GroupResults(ctx, items, gs).value)
    ensures var rs := GroupResults(ctx, items, GroupRows(ctx, KeyExprs(items), rows, []).value).value;
            var cols := Columns(ctx, items);
            |rs| > j && RowKey(Zip(cols, rs[i])) != RowKey(Zip(cols, rs[j]))
  {
    var gs := GroupRows(ctx, KeyExprs(items), rows, []).value;
    var rs, cols := GroupResults(ctx, items, gs).value, Columns(ctx, items);
    GroupRowsGroups(ctx, KeyExprs(items), rows);
    GroupKeysFrozen(ctx, KeyExprs(items), rows);
    ResultsOf(ctx, items, gs);
    assert gs[i] in gs && gs[j] in gs;
    ResultHoldsKey(ctx, items, gs[i].key, gs[i].rows);
    ResultHoldsKey(ctx, items, gs[j].key, gs[j].rows);
    assert GroupKeys(gs)[i] != GroupKeys(gs)[j];
    assert rs[i] in rs && rs[j] in rs;
    if RowKey(Zip(cols, rs[i])) == RowKey(Zip(cols, rs[j])) {
      EqualRows(cols, rs[i], rs[j]);
      EqualKeyParts(items, rs[i], rs[j]);
      assert false;
    }
  }

  /** DISTINCT finds nothing to drop in an aggregated table. */
  lemma DistinctDropsNothing(ctx: Ctx, items: seq<Item>, rows: seq<Row>)
    requires GroupRows(ctx, KeyExprs(items), rows, []).Ok?
    requires var lists := GroupResults(ctx, items, GroupRows(ctx, KeyExprs(items), rows, []).value);
             lists.Ok? && AllAgree(Columns(ctx, items), lists.value)
    ensures var cols := Columns(ctx, items);
            var lists := GroupResults(ctx, items, GroupRows(ctx, KeyExprs(items), rows, []).value).value;
            var table := Map(ZipFn(cols), lists);
            Dedupe(PairKey(), Map(Twin(), table), {}) == Map(Twin(), table)
  {
    var cols := Columns(ctx, items);
    var table := Map(ZipFn(cols), GroupResults(ctx, items, GroupRows(ctx, KeyExprs(items), rows, []).value).value);
    var gs := GroupRows(ctx, KeyExprs(items), rows, []).value;
    ResultsOf(ctx, items, gs);
    var ps := Map(Twin(), table);
    forall i, j | 0 <= i < j < |ps| ensures PairKey()(ps[i]) != PairKey()(ps[j]) {
      ResultsDiffer(ctx, items, rows, i, j);
    }
    DedupeNothing(PairKey(), ps, {});
  }

  // ---- the rewrite keeps rows ------------------------------------------------------------------------

  /** Without ORDER BY and paging, the second projection returns the table it was given. */
  lemma ProjectAgain(ctx: Ctx, p: Projection, cols: seq<string>, lists: seq<seq<Value>>)
    requires p.items == ColumnItems(cols) && p.order == [] && p.skip == None && p.limit == None
    requires AllAgree(cols, lists)
    requires var table := Map(Twin(), Map(ZipFn(cols), lists)); Dedupe(PairKey(), table, {}) == table
    ensures Project(ctx, p, None, Map(ZipFn(cols), lists)) == Ok(Map(ZipFn(cols), lists))
    ensures Map(UnzipFn(cols), Map(ZipFn(cols), lists)) == lists
  {
    var rows := Map(ZipFn(cols), lists);
    PairsOf(ctx, cols, lists);
    KeepAll(ctx, Map(Twin(), rows));
    assert Map(ProjOf(), Map(Twin(), rows)) == rows;
    forall i | 0 <= i < |lists| ensures UnzipFn(cols)(rows[i]) == lists[i] {
      assert lists[i] in lists;
      UnzipZip(cols, lists[i]);
    }
  }

  lemma ProjectDistinct(ctx: Ctx, p: Projection, cols: seq<string>, lists: seq<seq<Value>>)
    requires p.items == ColumnItems(cols)
    requires AllAgree(cols, lists)
    requires var table := Map(Twin(), Map(ZipFn(cols), lists)); Dedupe(PairKey(), table, {}) == table
    ensures Project(ctx, p.(distinct := false), None, Map(ZipFn(cols), lists)) ==
            Project(ctx, p, None, Map(ZipFn(cols), lists))
  {
    PairsOf(ctx, cols, lists);
  }

  /** When items that share a column name have the same expression, an aggregating projection gives the
      same rows in the same order without DISTINCT, with or without ORDER BY, SKIP and LIMIT, and the same
      error if it fails. */
  lemma AggregateWithoutDistinct(ctx: Ctx, p: Projection, rows: seq<Row>)
    requires NamesAgree(ctx, p.items)
    ensures AggregateReturn(ctx, p.(distinct := false), rows) == AggregateReturn(ctx, p, rows)
  {
    var gs := GroupRows(ctx, KeyExprs(p.items), rows, []);
    if p.distinct && gs.Ok? && GroupResults(ctx, p.items, gs.value).Ok? {
      var cols, lists := Columns(ctx, p.items), GroupResults(ctx, p.items, gs.value).value;
      ResultsAgree(ctx, p.items, rows);
      DistinctDropsNothing(ctx, p.items, rows);
      var again := p.(items := ColumnItems(cols));
      if p.order == [] && p.skip == None && p.limit == None {
        ProjectAgain(ctx, again, cols, lists);
      } else {
        ProjectDistinct(ctx, again, cols, lists);
        assert again.(distinct := false) == p.(distinct := false).(items := ColumnItems(cols));
      }
    }
  }

  // ---- exactly when ----------------------------------------------------------------------------------

  predicate Plain(p: Projection) {
    p.order == [] && p.skip == None && p.limit == None
  }

  /** With nothing else to do, DISTINCT keeps the rows exactly when no row has two values for one column. */
  lemma DistinctExactly(ctx: Ctx, p: Projection, rows: seq<Row>)
    requires p.distinct && Plain(p) && AggregateReturn(ctx, p.(distinct := false), rows).Ok?
    ensures AggregateReturn(ctx, p.(distinct := false), rows) == AggregateReturn(ctx, p, rows) <==>
            AllAgree(Columns(ctx, p.items), AggregateReturn(ctx, p.(distinct := false), rows).value)
  {
    var cols, lists := Columns(ctx, p.items), AggregateReturn(ctx, p.(distinct := false), rows).value;
    if AllAgree(cols, lists) {
      DistinctDropsNothing(ctx, p.items, rows);
      ProjectAgain(ctx, p.(items := ColumnItems(cols)), cols, lists);
    }
  }

  /** Two keys under one column name: on any row where their values differ, dropping DISTINCT shows. */
  lemma SharedKeysDiffer(ctx: Ctx, p: Projection, row: Row, i: nat, j: nat)
    requires p.distinct && Plain(p) && AggregateReturn(ctx, p.(distinct := false), [row]).Ok?
    requires i < j < |p.items| && !IsAgg(p.items[i]) && !IsAgg(p.items[j])
    requires Columns(ctx, p.items)[i] == Columns(ctx, p.items)[j]
    requires var a, b := Eval(ctx, ItemExpr(p.items[i]), ctx.params + row),
             Eval(ctx, ItemExpr(p.items[j]), ctx.params + row);
             a.Ok? && b.Ok? && Freeze(a.value) != Freeze(b.value)
    ensures AggregateReturn(ctx, p.(distinct := false), [row]) != AggregateReturn(ctx, p, [row])
  {
    var keys, lists := KeyExprs(p.items), AggregateReturn(ctx, p.(distinct := false), [row]).value;
    OneGroup(ctx, keys, row);
    var g := Group(GroupKey(ctx, keys, row).value, [row]);
    ResultsOf(ctx, p.items, [g]);
    ResultEntries(ctx, p.items, ctx.params + row, [row]);
    DistinctExactly(ctx, p, [row]);
    assert lists[0] in lists;
    assert IsEntry(ctx, p.items[i], ctx.params + row, [row], lists[0][i]);
    assert IsEntry(ctx, p.items[j], ctx.params + row, [row], lists[0][j]);
  }

  lemma OneGroup(ctx: Ctx, keys: seq<Expr>, row: Row)
    requires GroupRows(ctx, keys, [row], []).Ok?
    ensures GroupKey(ctx, keys, row).Ok?
    ensures GroupRows(ctx, keys, [row], []) == Ok([Group(GroupKey(ctx, keys, row).value, [row])])
  {
    var key := GroupKey(ctx, keys, row).value;
    assert [row][1..] == [];
    assert GroupRows(ctx, keys, [], AddToGroup([], key, row)) == Ok(AddToGroup([], key, row));
  }

  /** A column name stands for one expression in every aggregating DISTINCT projection of the query. */
  ghost predicate ColumnsAgree(ctx: Ctx, c: Clause) {
    (c.With? || c.Return?) && c.proj.distinct && HasPlainAgg(c.proj.items) ==> NamesAgree(ctx, c.proj.items)
  }

  lemma DropInKeeps(ctx: Ctx, p: Projection, w: Option<Expr>, rows: seq<Row>)
    requires p.distinct && HasPlainAgg(p.items) ==> NamesAgree(ctx, p.items)
    ensures ProjectOrAggregate(ctx, DropIn(p), w, rows) == ProjectOrAggregate(ctx, p, w, rows)
  {
    if p.distinct && HasPlainAgg(p.items) {
      var i :| 0 <= i < |p.items| && IsPlainAgg(p.items[i]);
      assert IsAgg(p.items[i]);
      AggregateWithoutDistinct(ctx, p, rows);
    }
  }

  lemma {:induction false} DropKeepsRun(ctx: Ctx, cs: seq<Clause>, s: Result<State>)
    requires forall c :: c in cs ==> ColumnsAgree(ctx, c)
    ensures RunClauses(ctx, DropAll(cs), s) == RunClauses(ctx, cs, s)
    decreases cs
  {
    if cs != [] && s.Ok? {
      assert ColumnsAgree(ctx, cs[0]);
      match cs[0] {
        case With(p, w) => DropInKeeps(ctx, p, w, s.value.rows);
        case Return(p) => DropInKeeps(ctx, p, None, s.value.rows);
        case _ =>
      }
      assert RunClause(ctx, DropClause(cs[0]), s.value) == RunClause(ctx, cs[0], s.value);
      DropKeepsRun(ctx, cs[1..], RunClause(ctx, cs[0], s.value));
      assert DropAll(cs)[1..] == DropAll(cs[1..]);
    }
  }

  /** Dropping DISTINCT beside aggregates keeps the outcome of the whole query. */
  lemma DropDistinctKeepsQuery(ctx: Ctx, cs: seq<Clause>)
    requires forall c :: c in cs ==> ColumnsAgree(ctx, c)
    ensures RunQuery(ctx, DropAll(cs)) == RunQuery(ctx, cs)
  {
    DropKeepsRun(ctx, cs, Ok(State([map[]], [])));
  }

  // ---- a repeated column name -------------------------------------------------------------------------

  function Repeated(distinct: bool): Projection {
    Projection([Item(Identifier("x"), Some("c")), Item(Call("count", false, [StarArg]), Some("c"))], distinct, [],
        None, None)
  }

  lemma RepeatedTable(ctx: Ctx) returns (rows: seq<Row>)
    ensures rows == [map["x" := Int(1)], map["x" := Int(2)]]
    ensures GroupRows(ctx, KeyExprs(Repeated(true).items), rows, []) ==
            Ok([Group([Int(1)], [rows[0]]), Group([Int(2)], [rows[1]])])
  {
    rows := [map["x" := Int(1)], map["x" := Int(2)]];
    var items, keys := Repeated(true).items, [Identifier("x")];
    assert items[1..][1..] == [] && Lower("count") == "count";
    assert KeyExprs(items[1..]) == [];
    assert KeyExprs(items) == keys;
    forall i | 0 <= i < 2 ensures GroupKey(ctx, keys, rows[i]) == Ok([Int(i + 1)]) {
      assert Eval(ctx, keys[0], ctx.params + rows[i]) == Ok(Int(i + 1));
      assert keys[1..] == [];
      AppendNothing([Int(i + 1)], Ok([]));
      assert FreezeAll([Int(i + 1)]) == [Int(i + 1)] by { assert FreezeAll([]) == []; }
    }
    var g1 := Group([Int(1)], [rows[0]]);
    assert AddToGroup([], [Int(1)], rows[0]) == [g1];
    assert NormAll([Int(1)])[0] != NormAll([Int(2)])[0];
    assert AddToGroup([g1], [Int(2)], rows[1]) == [g1] + AddToGroup([], [Int(2)], rows[1]);
    assert rows[1..] == [rows[1]] && rows[1..][1..] == [];
    assert GroupRows(ctx, keys, rows, []) == GroupRows(ctx, keys, [rows[1]], [g1]);
    var g2 := Group([Int(2)], [rows[1]]);
    assert GroupRows(ctx, keys, [rows[1]], [g1]) == GroupRows(ctx, keys, [], [g1, g2]) by {
      assert [g1][1..] == [] && [g1] + [g2] == [g1, g2];
    }
  }

  lemma RepeatedResult(ctx: Ctx, key: Value, row: Row)
    ensures GroupResult(ctx, Repeated(true).items, [key], [row]) == Ok([key, Int(1)])
  {
    var items := Repeated(true).items;
    assert Lower("count") == "count";
    assert EvalAgg(ctx, items[1], [row]) == Ok(Int(1));
    assert items[1..][1..] == [] && [key][1..] == [];
    AppendNothing([Int(1)], Ok([]));
    assert GroupResult(ctx, items[1..], [], [row]) == Ok([Int(1)]);
    assert [key] + [Int(1)] == [key, Int(1)];
  }

  lemma RepeatedResults(ctx: Ctx, a: Row, b: Row)
    ensures GroupResults(ctx, Repeated(true).items, [Group([Int(1)], [a]), Group([Int(2)], [b])]) ==
            Ok([[Int(1), Int(1)], [Int(2), Int(1)]])
  {
    var items, g, h := Repeated(true).items, Group([Int(1)], [a]), Group([Int(2)], [b]);
    RepeatedResult(ctx, Int(1), a);
    RepeatedResult(ctx, Int(2), b);
    assert [g, h][1..] == [h] && [h][1..] == [];
    AppendNothing([[Int(2), Int(1)]], Ok([]));
    assert GroupResults(ctx, items, [h]) == Ok([[Int(2), Int(1)]]);
    assert [[Int(1), Int(1)]] + [[Int(2), Int(1)]] == [[Int(1), Int(1)], [Int(2), Int(1)]];
  }

  lemma RepeatedColumns(ctx: Ctx)
    ensures Columns(ctx, Repeated(true).items) == ["c", "c"] && HasPlainAgg(Repeated(true).items)
  {
    var items := Repeated(true).items;
    assert items[1..][1..] == [];
    assert Columns(ctx, items[1..]) == ["c"];
    assert IsPlainAgg(items[1]) by { assert Lower("count") == "count"; }
  }

  /** `RETURN DISTINCT x AS c, count(*) AS c`: the count overwrites the key, and DISTINCT then merges groups. */
  lemma RepeatedColumnsDiffer(ctx: Ctx, rows: seq<Row>)
    requires rows == [map["x" := Int(1)], map["x" := Int(2)]]
    ensures var p := Repeated(true);
            && AggregateReturn(ctx, DropIn(p), rows) == Ok([[Int(1), Int(1)], [Int(2), Int(1)]])
            && AggregateReturn(ctx, p, rows) == Ok([[Int(1), Int(1)]])
  {
    var p := Repeated(true);
    var same := RepeatedTable(ctx);
    var lists := [[Int(1), Int(1)], [Int(2), Int(1)]];
    RepeatedResults(ctx, rows[0], rows[1]);
    RepeatedColumns(ctx);
    assert DropIn(p) == Repeated(false);
    MergedColumns(ctx, p, lists);
    var merged: Row := map["c" := Int(1)];
    assert Unzip(["c", "c"], merged) == [Int(1), Int(1)];
    assert Map(UnzipFn(["c", "c"]), [merged]) == [[Int(1), Int(1)]];
  }

  lemma MergedColumns(ctx: Ctx, p: Projection, lists: seq<seq<Value>>)
    requires p.distinct && p.order == [] && p.skip == None && p.limit == None
    requires lists == [[Int(1), Int(1)], [Int(2), Int(1)]]
    ensures Project(ctx, p.(items := ColumnItems(["c", "c"])), None, Map(ZipFn(["c", "c"]), lists)) ==
            Ok([map["c" := Int(1)]])
  {
    var cols, row: Row := ["c", "c"], map["c" := Int(1)];
    forall i | 0 <= i < 2 ensures Zip(cols, lists[i]) == row {
      assert cols[1..] == ["c"] && lists[i][1..] == [Int(1)];
      assert Zip(["c"], [Int(1)]) == row by { assert Zip([], []) == map[]; }
    }
    assert Map(ZipFn(cols), lists) == [row, row];
    ProjectColumns(ctx, cols, row, map[]);
    assert ProjectRow(ctx, ColumnItems(cols), row, map[]).value == row;
    var f, pair := PairFn(ctx, ColumnItems(cols)), Paired(row, row);
    FlatMapOne(f, row);
    FlatMapConcat(f, [row], [row]);
    assert [row] + [row] == [row, row] && [pair] + [pair] == [pair, pair];
    assert [pair, pair][1..] == [pair] && [pair][1..] == [];
    assert Dedupe(PairKey(), [pair], {RowKey(row)}) == Dedupe(PairKey(), [], {RowKey(row)});
    assert Dedupe(PairKey(), [pair, pair], {}) == [pair] + Dedupe(PairKey(), [pair], {} + {PairKey()(pair)});
    assert {} + {PairKey()(pair)} == {RowKey(row)};
    KeepAll(ctx, [pair]);
    assert Map(ProjOf(), [pair]) == [row];
  }
}
