/** What the executor's clauses compute: projection, grouping, ordering, and whole queries. */
module Query {
  import opened Prelude
  import opened Ast
  import opened Evaluation
  import opened Matcher
  import opened Ordering

  // ---- projection ------------------------------------------------------------------------

  /** A row before projection beside the row it projects to; ORDER BY sees both. */
  datatype Paired = Paired(orig: Row, proj: Row)

  function ProjName(ctx: Ctx, e: Expr, alias: Option<string>): string {
    if alias.Some? then alias.value
    else
      match e
      case Identifier(x) => x
      case Property(Identifier(x), key) => x + "." + key
      case Property(_, key) => key
      case Call(f, _, _) => Lower(f)
      case _ => ctx.text(e)
  }

  function ProjectRow(ctx: Ctx, items: seq<Item>, row: Row, acc: Row): Result<Row> {
    if items == [] then Ok(acc)
    else if items[0].Star? then ProjectRow(ctx, items[1..], row, acc + row)
    else
      match Eval(ctx, items[0].expr, ctx.params + row)
      case Err(e) => Err(e)
      case Ok(v) => ProjectRow(ctx, items[1..], row, acc[ProjName(ctx, items[0].expr, items[0].alias) := v])
  }

  function PairFn(ctx: Ctx, items: seq<Item>): Row -> Result<seq<Paired>> {
    (row: Row) =>
      match ProjectRow(ctx, items, row, map[])
      case Err(e) => Err(e)
      case Ok(proj) => Ok([Paired(row, proj)])
  }

  /** Grouping and DISTINCT keys: nulls, entities and lists become tuples. */
  function Freeze(v: Value): Value
    decreases v
  {
    match v
    case Null => Tup([Str("null")])
    case NodeRef(n) => Tup([Str("ent"), Str("Node"), Int(n)])
    case RelRef(r) => Tup([Str("ent"), Str("Relationship"), Int(r)])
    case List(xs) => Tup([Str("list"), Tup(FreezeAll(xs))])
    case _ => v
  }

  function FreezeAll(vs: seq<Value>): (fs: seq<Value>)
    ensures |fs| == |vs|
    decreases vs
  {
    if vs == [] then [] else [Freeze(vs[0])] + FreezeAll(vs[1..])
  }

  /** Two rows count as equal for DISTINCT exactly when their keys are. */
  function RowKey(row: Row): Row {
    map x | x in row :: Norm(Freeze(row[x]))
  }

  function Dedupe<T>(key: T -> Row, xs: seq<T>, seen: set<Row>): seq<T> {
    if xs == [] then []
    else if key(xs[0]) in seen then Dedupe(key, xs[1..], seen)
    else [xs[0]] + Dedupe(key, xs[1..], seen + {key(xs[0])})
  }

  function PairKey(): Paired -> Row {
    (p: Paired) => RowKey(p.proj)
  }

  function ProjPasses(ctx: Ctx, w: Option<Expr>): Paired -> Result<bool> {
    (p: Paired) => TestWhere(ctx, w, p.proj)
  }

  function SortValue(ctx: Ctx, o: Ordered, p: Paired): Result<Value> {
    Eval(ctx, o.expr, ctx.params + (p.orig + p.proj))
  }

  function SortKey(ctx: Ctx, o: Ordered): Paired -> Value {
    (p: Paired) => if SortValue(ctx, o, p).Ok? then SortValue(ctx, o, p).value else Null
  }

  /** Every sort value is computed before anything moves; the first failure is raised. */
  function SortValuesOk(ctx: Ctx, o: Ordered, ps: seq<Paired>): Result<bool> {
    if ps == [] then Ok(true)
    else
      match SortValue(ctx, o, ps[0])
      case Err(e) => Err(e)
      case Ok(_) => SortValuesOk(ctx, o, ps[1..])
  }

  function OrderPaired(ctx: Ctx, o: Ordered, ps: seq<Paired>): Result<seq<Paired>> {
    match SortValuesOk(ctx, o, ps)
    case Err(e) => Err(e)
    case Ok(_) => OrderPass(o, SortKey(ctx, o), ps)
  }

  function OrderAll(ctx: Ctx, os: seq<Ordered>, ps: seq<Paired>): Result<seq<Paired>> {
    if os == [] then Ok(ps)
    else
      match OrderAll(ctx, os[1..], ps)
      case Err(e) => Err(e)
      case Ok(qs) => OrderPaired(ctx, os[0], qs)
  }

  /** Python's `int(v)`. */
  function AsInt(ctx: Ctx, v: Value): Option<int> {
    match v
    case Int(i) => Some(i)
    case Bool(b) => Some(if b then 1 else 0)
    case Float(r) => Some(if r >= 0.0 then r.Floor else -((-r).Floor))
    case Null => None
    case _ => match ctx.lib("int", [v]) case Some(Int(i)) => Some(i) case _ => None
  }

  function Count(ctx: Ctx, e: Expr): Result<int> {
    match Eval(ctx, e, ctx.params)
    case Err(er) => Err(er)
    case Ok(v) => match AsInt(ctx, v) case None => Err(RuntimeFailure) case Some(i) => Ok(i)
  }

  function SkipRows(ctx: Ctx, e: Option<Expr>, rows: seq<Row>): Result<seq<Row>> {
    if e == None then Ok(rows)
    else match Count(ctx, e.value) case Err(er) => Err(er) case Ok(n) => Ok(PySlice(rows, n, |rows|))
  }

  function LimitRows(ctx: Ctx, e: Option<Expr>, rows: seq<Row>): Result<seq<Row>> {
    if e == None then Ok(rows)
    else match Count(ctx, e.value) case Err(er) => Err(er) case Ok(n) => Ok(PySlice(rows, 0, n))
  }

  function ProjOf(): Paired -> Row {
    (p: Paired) => p.proj
  }

  /** DISTINCT, then the WHERE of a WITH, then ORDER BY, SKIP and LIMIT. */
  function Arrange(ctx: Ctx, proj: Projection, w: Option<Expr>, ps: seq<Paired>): Result<seq<Row>> {
    match FilterR(ProjPasses(ctx, w), if proj.distinct then Dedupe(PairKey(), ps, {}) else ps)
    case Err(e) => Err(e)
    case Ok(kept) =>
      match OrderAll(ctx, proj.order, kept)
      case Err(e) => Err(e)
      case Ok(sorted) =>
        match SkipRows(ctx, proj.skip, Map(ProjOf(), sorted))
        case Err(e) => Err(e)
        case Ok(rows) => LimitRows(ctx, proj.limit, rows)
  }

  function Project(ctx: Ctx, proj: Projection, w: Option<Expr>, rows: seq<Row>): Result<seq<Row>> {
    match FlatMapR(PairFn(ctx, proj.items), rows)
    case Err(e) => Err(e)
    case Ok(ps) => Arrange(ctx, proj, w, ps)
  }

  // ---- aggregation -----------------------------------------------------------------------------

  predicate IsAgg(item: Item) {
    item.Item? && item.expr.Call? && Lower(item.expr.func) in AGGREGATES
  }

  predicate HasAgg(items: seq<Item>) {
    exists i :: 0 <= i < |items| && IsAgg(items[i])
  }

  datatype Group = Group(key: seq<Value>, rows: seq<Row>)

  function KeyExprs(items: seq<Item>): seq<Expr> {
    if items == [] then []
    else if IsAgg(items[0]) then KeyExprs(items[1..])
    else [if items[0].Star? then StarArg else items[0].expr] + KeyExprs(items[1..])
  }

  /** `groups.setdefault(key, []).append(row)`: a new key goes last and keeps its first spelling. */
  function AddToGroup(gs: seq<Group>, key: seq<Value>, row: Row): seq<Group> {
    if gs == [] then [Group(key, [row])]
    else if NormAll(gs[0].key) == NormAll(key) then [gs[0].(rows := gs[0].rows + [row])] + gs[1..]
    else [gs[0]] + AddToGroup(gs[1..], key, row)
  }

  function GroupKey(ctx: Ctx, keys: seq<Expr>, row: Row): Result<seq<Value>> {
    match EvalAll(ctx, keys, ctx.params + row)
    case Err(e) => Err(e)
    case Ok(vs) => Ok(FreezeAll(vs))
  }

  function GroupRows(ctx: Ctx, keys: seq<Expr>, rows: seq<Row>, gs: seq<Group>): Result<seq<Group>> {
    if rows == [] then Ok(gs)
    else
      match GroupKey(ctx, keys, rows[0])
      case Err(e) => Err(e)
      case Ok(key) => GroupRows(ctx, keys, rows[1..], AddToGroup(gs, key, rows[0]))
  }

  function DedupeValues(vs: seq<Value>, seen: set<Value>): seq<Value> {
    if vs == [] then []
    else if Norm(Freeze(vs[0])) in seen then DedupeValues(vs[1..], seen)
    else [vs[0]] + DedupeValues(vs[1..], seen + {Norm(Freeze(vs[0]))})
  }

  /** The non-null argument values of an aggregate over a group. */
  function ArgValues(ctx: Ctx, e: Expr, rows: seq<Row>): Result<seq<Value>> {
    if rows == [] then Ok([])
    else
      match Eval(ctx, e, ctx.params + rows[0])
      case Err(er) => Err(er)
      case Ok(v) => Append(if v == Null then [] else [v], ArgValues(ctx, e, rows[1..]))
  }

  function Fold(ctx: Ctx, name: string, vs: seq<Value>): Result<Value> {
    if name == "count" then Ok(Int(|vs|))
    else if name == "collect" then Ok(List(vs))
    else if name in {"sum", "avg", "min", "max"} && vs == [] then Ok(Null)
    else Lift(ctx.lib("agg:" + name, vs))
  }

  function EvalAgg(ctx: Ctx, item: Item, rows: seq<Row>): Result<Value>
    requires IsAgg(item)
  {
    var name := Lower(item.expr.func);
    if item.expr.args == [] then Err(RuntimeFailure)
    else if name == "count" && item.expr.args[0].StarArg? then Ok(Int(|rows|))
    else
      match ArgValues(ctx, item.expr.args[0], rows)
      case Err(e) => Err(e)
      case Ok(vs) => Fold(ctx, name, if item.expr.distinct then DedupeValues(vs, {}) else vs)
  }

  /** One result row: aggregates of the group beside the values of its key, in projection order. */
  function GroupResult(ctx: Ctx, items: seq<Item>, key: seq<Value>, rows: seq<Row>): Result<seq<Value>> {
    if items == [] then Ok([])
    else if IsAgg(items[0]) then
      match EvalAgg(ctx, items[0], rows)
      case Err(e) => Err(e)
      case Ok(v) => Append([v], GroupResult(ctx, items[1..], key, rows))
    else if key == [] then Err(RuntimeFailure)
    else Append([key[0]], GroupResult(ctx, items[1..], key[1..], rows))
  }

  function GroupResults(ctx: Ctx, items: seq<Item>, gs: seq<Group>): Result<seq<seq<Value>>> {
    if gs == [] then Ok([])
    else
      match GroupResult(ctx, items, gs[0].key, gs[0].rows)
      case Err(e) => Err(e)
      case Ok(r) => Append([r], GroupResults(ctx, items, gs[1..]))
  }

  function Columns(ctx: Ctx, items: seq<Item>): (cols: seq<string>)
    ensures |cols| == |items|
  {
    if items == [] then []
    else [if items[0].Star? then "*" else ProjName(ctx, items[0].expr, items[0].alias)] + Columns(ctx, items[1..])
  }

  /** `dict(zip(cols, values))`: a repeated column keeps its last value. */
  function Zip(cols: seq<string>, vs: seq<Value>): Row
    decreases |cols|
  {
    if cols == [] || vs == [] then map[]
    else map[cols[0] := vs[0]] + Zip(cols[1..], vs[1..])
  }

  function ZipFn(cols: seq<string>): seq<Value> -> Row {
    (vs: seq<Value>) => Zip(cols, vs)
  }

  function ColumnItems(cols: seq<string>): seq<Item> {
    seq(|cols|, i requires 0 <= i < |cols| => Item(Identifier(cols[i]), None))
  }

  function Unzip(cols: seq<string>, row: Row): seq<Value> {
    seq(|cols|, i requires 0 <= i < |cols| => if cols[i] in row then row[cols[i]] else Null)
  }

  function UnzipFn(cols: seq<string>): Row -> seq<Value> {
    (row: Row) => Unzip(cols, row)
  }

  /** The rows of an aggregating projection, as lists in column order. Ordering, paging and DISTINCT go
      through a second projection over the column names. */
  function AggregateReturn(ctx: Ctx, proj: Projection, rows: seq<Row>): Result<seq<seq<Value>>> {
    match GroupRows(ctx, KeyExprs(proj.items), rows, [])
    case Err(e) => Err(e)
    case Ok(gs) =>
      match GroupResults(ctx, proj.items, gs)
      case Err(e) => Err(e)
      case Ok(results) =>
        var cols := Columns(ctx, proj.items);
        if proj.order == [] && proj.skip == None && proj.limit == None && !proj.distinct then Ok(results)
        else
          match Project(ctx, proj.(items := ColumnItems(cols)), None, Map(ZipFn(cols), results))
          case Err(e) => Err(e)
          case Ok(rs) => Ok(Map(UnzipFn(cols), rs))
  }

  function ProjectOrAggregate(ctx: Ctx, proj: Projection, w: Option<Expr>, rows: seq<Row>): Result<seq<Row>> {
    if HasAgg(proj.items) then
      match AggregateReturn(ctx, proj, rows)
      case Err(e) => Err(e)
      case Ok(rs) => FilterR(Passes(ctx, w), Map(ZipFn(Columns(ctx, proj.items)), rs))
    else Project(ctx, proj, w, rows)
  }

  // ---- UNWIND and whole queries -----------------------------------------------------------------

  function Bind(row: Row, name: string): Value -> Row {
    (v: Value) => row[name := v]
  }

  function UnwindFn(ctx: Ctx, e: Expr, name: string): Row -> Result<seq<Row>> {
    (row: Row) =>
      match Eval(ctx, e, ctx.params + row)
      case Err(er) => Err(er)
      case Ok(Null) => Ok([])
      case Ok(List(vs)) => Ok(Map(Bind(row, name), vs))
      case Ok(v) => Ok([row[name := v]])
  }

  /** The table passed to the next clause, and the last RETURN's rows. */
  datatype State = State(rows: seq<Row>, result: seq<Row>)

  function OnRows(s: State, rows: Result<seq<Row>>): Result<State> {
    match rows
    case Err(e) => Err(e)
    case Ok(rs) => Ok(s.(rows := rs))
  }

  function RunClause(ctx: Ctx, c: Clause, s: State): Result<State> {
    match c
    case Match(pattern, optional, w) => OnRows(s, MatchClause(ctx, false, pattern, optional, w, s.rows))
    case With(proj, w) => OnRows(s, ProjectOrAggregate(ctx, proj, w, s.rows))
    case Unwind(e, name) => OnRows(s, FlatMapR(UnwindFn(ctx, e, name), s.rows))
    case Return(proj) =>
      match ProjectOrAggregate(ctx, proj, None, s.rows)
      case Err(e) => Err(e)
      case Ok(rs) => Ok(State([], rs))
  }

  function RunClauses(ctx: Ctx, cs: seq<Clause>, s: Result<State>): Result<State> {
    if cs == [] || s.Err? then s else RunClauses(ctx, cs[1..], RunClause(ctx, cs[0], s.value))
  }

  /** `run_query`: start from one empty row; the answer is what the last RETURN projected. */
  function RunQuery(ctx: Ctx, cs: seq<Clause>): Result<seq<Row>> {
    match RunClauses(ctx, cs, Ok(State([map[]], [])))
    case Err(e) => Err(e)
    case Ok(s) => Ok(s.result)
  }
}
