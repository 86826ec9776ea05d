/** Predicate pushdown and constant folding in WHERE, over whole queries. */
module RewriteQueries {
  import opened Prelude
  import opened Ast
  import opened Evaluation
  import opened Matcher
  import opened Query
  import opened QueryFacts
  import opened Pushdown
  import opened Simplify

  // ---- clause by clause -------------------------------------------------------------------------------

  function MapClauses(f: Clause -> Clause, cs: seq<Clause>): seq<Clause> {
    if cs == [] then [] else [f(cs[0])] + MapClauses(f, cs[1..])
  }

  /** Whenever a clause does not fail, the rewritten clause does the same. */
  ghost predicate KeepsClause(ctx: Ctx, f: Clause -> Clause, c: Clause) {
    forall s: State :: RunClause(ctx, c, s).Ok? ==> RunClause(ctx, f(c), s) == RunClause(ctx, c, s)
  }

  lemma {:induction false} KeepsRun(ctx: Ctx, f: Clause -> Clause, cs: seq<Clause>, s: Result<State>)
    requires (forall c :: c in cs ==> KeepsClause(ctx, f, c)) && RunClauses(ctx, cs, s).Ok?
    ensures RunClauses(ctx, MapClauses(f, cs), s) == RunClauses(ctx, cs, s)
    decreases cs
  {
    if cs != [] && s.Ok? {
      assert cs[0] in cs;
      var next := RunClause(ctx, cs[0], s.value);
      FailedRun(ctx, cs[1..], next);
      assert KeepsClause(ctx, f, cs[0]);
      KeepsRun(ctx, f, cs[1..], next);
      assert MapClauses(f, cs)[1..] == MapClauses(f, cs[1..]);
    }
  }

  lemma KeepsQuery(ctx: Ctx, f: Clause -> Clause, cs: seq<Clause>)
    requires (forall c :: c in cs ==> KeepsClause(ctx, f, c)) && RunQuery(ctx, cs).Ok?
    ensures RunQuery(ctx, MapClauses(f, cs)) == RunQuery(ctx, cs)
  {
    KeepsRun(ctx, f, cs, Ok(State([map[]], [])));
  }

  // ---- pushdown -----------------------------------------------------------------------------------------

  function Push(): Clause -> Clause {
    (c: Clause) =>
      if c.Match? then Match(PushPattern(c.pattern, c.where), c.optional, PushWhere(c.pattern, c.where)) else c
  }

  /** Pushing predicates down in every MATCH keeps the result of a query that does not fail, rows in order. */
  lemma PushdownKeepsQuery(ctx: Ctx, cs: seq<Clause>)
    requires forall c :: c in cs && c.Match? ==> CleanPattern(c.pattern)
    requires RunQuery(ctx, cs).Ok?
    ensures RunQuery(ctx, MapClauses(Push(), cs)) == RunQuery(ctx, cs)
  {
    forall c | c in cs ensures KeepsClause(ctx, Push(), c) {
      forall s: State | RunClause(ctx, c, s).Ok? ensures RunClause(ctx, Push()(c), s) == RunClause(ctx, c, s) {
        if c.Match? { PushdownKeepsClause(ctx, c.pattern, c.optional, c.where, s.rows); }
      }
    }
    KeepsQuery(ctx, Push(), cs);
  }

  // ---- operands that are boolean or null by their form -------------------------------------------------------

  predicate Compares(op: BinOp) {
    match op
    case EqOp => true case NeqOp => true case LtOp => true case GtOp => true case LteOp => true case GteOp => true
    case StartsOp => true case EndsOp => true case ContainsOp => true case InOp => true case RegexOp => true
    case _ => false
  }

  /** The library's comparisons answer with booleans. */
  ghost predicate LibraryCompares(ctx: Ctx) {
    forall op, a, b :: Compares(op) && ctx.lib(OpName(op), [a, b]).Some? ==> ctx.lib(OpName(op), [a, b]).value.Bool?
  }

  predicate BooleanForm(e: Expr) {
    match e
    case NullLit => true
    case Boolean(_) => true
    case Binary(op, _, _) => IsLogic(op) || Compares(op)
    case Not(_) => true
    case IsNull(_, _) => true
    case _ => false
  }

  /** The operands of AND and OR have such a form. */
  predicate LogicSafe(e: Expr)
    decreases e, 1
  {
    match e
    case Property(o, _) => LogicSafe(o)
    case ListLit(es) => LogicSafeAll(es)
    case Binary(op, l, r) =>
      LogicSafe(l) && LogicSafe(r) && (op.AndOp? || op.OrOp? ==> BooleanForm(l) && BooleanForm(r))
    case Not(x) => LogicSafe(x)
    case Neg(x) => LogicSafe(x)
    case IsNull(x, _) => LogicSafe(x)
    case Subscript(b, i) => LogicSafe(b) && LogicSafe(i)
    case Slice(b, s, n) => LogicSafe(b) && (s.Some? ==> LogicSafe(s.value)) && (n.Some? ==> LogicSafe(n.value))
    case Call(_, _, es) => LogicSafeAll(es)
    case Coalesce(es) => LogicSafeAll(es)
    case _ => true
  }

  predicate LogicSafeAll(es: seq<Expr>)
    decreases es, 0
  {
    es == [] || (LogicSafe(es[0]) && LogicSafeAll(es[1..]))
  }

  /** At the top of a predicate, where only truth matters, any operand will do. */
  predicate TruthSafe(e: Expr)
    decreases e
  {
    match e
    case Binary(op, l, r) => if IsLogic(op) then TruthSafe(l) && TruthSafe(r) else LogicSafe(e)
    case Not(x) => TruthSafe(x)
    case _ => LogicSafe(e)
  }

  lemma FormIsLogical(ctx: Ctx, e: Expr, env: Row)
    requires LibraryCompares(ctx) && BooleanForm(e)
    ensures LogicalOperand(ctx, e, env)
  {
    if e.Binary? {
      var a, b := Eval(ctx, e.left, env), Eval(ctx, e.right, env);
      assert Eval(ctx, e, env) == OnBinary(ctx, e.op, a, b);
      if a.Ok? && b.Ok? && Compares(e.op) { ComparesLogically(ctx, e.op, a.value, b.value); }
    }
  }

  lemma ComparesLogically(ctx: Ctx, op: BinOp, a: Value, b: Value)
    requires LibraryCompares(ctx) && Compares(op)
    ensures BinValue(ctx, op, a, b).Ok? ==> Logical(BinValue(ctx, op, a, b).value)
  {
    var answer := ctx.lib(OpName(op), [a, b]);
    assert answer.Some? ==> answer.value.Bool?;
  }

  lemma {:induction false} SafeIsTyped(ctx: Ctx, e: Expr, env: Row)
    requires LibraryCompares(ctx) && LogicSafe(e)
    ensures LogicTyped(ctx, e, env)
    decreases e, 1
  {
    match e
    case Property(o, _) => SafeIsTyped(ctx, o, env);
    case ListLit(es) => AllSafeIsTyped(ctx, es, env);
    case Binary(op, l, r) =>
      SafeIsTyped(ctx, l, env);
      SafeIsTyped(ctx, r, env);
      if op.AndOp? || op.OrOp? { FormIsLogical(ctx, l, env); FormIsLogical(ctx, r, env); }
    case Not(x) => SafeIsTyped(ctx, x, env);
    case Neg(x) => SafeIsTyped(ctx, x, env);
    case IsNull(x, _) => SafeIsTyped(ctx, x, env);
    case Subscript(b, i) => SafeIsTyped(ctx, b, env); SafeIsTyped(ctx, i, env);
    case Slice(b, s, n) =>
      SafeIsTyped(ctx, b, env);
      if s.Some? { SafeIsTyped(ctx, s.value, env); }
      if n.Some? { SafeIsTyped(ctx, n.value, env); }
    case Call(_, _, es) => AllSafeIsTyped(ctx, es, env);
    case Coalesce(es) => AllSafeIsTyped(ctx, es, env);
    case _ =>
  }

  lemma {:induction false} AllSafeIsTyped(ctx: Ctx, es: seq<Expr>, env: Row)
    requires LibraryCompares(ctx) && LogicSafeAll(es)
    ensures LogicTypedAll(ctx, es, env)
    decreases es, 0
  {
    if es != [] {
      SafeIsTyped(ctx, es[0], env);
      AllSafeIsTyped(ctx, es[1..], env);
    }
  }

  lemma {:induction false} TruthSafeIsTyped(ctx: Ctx, e: Expr, env: Row)
    requires LibraryCompares(ctx) && TruthSafe(e)
    ensures TruthTyped(ctx, e, env)
    decreases e
  {
    if e.Binary? && IsLogic(e.op) {
      TruthSafeIsTyped(ctx, e.left, env);
      TruthSafeIsTyped(ctx, e.right, env);
    } else if e.Not? {
      TruthSafeIsTyped(ctx, e.arg, env);
    } else {
      SafeIsTyped(ctx, e, env);
    }
  }

  // ---- constant folding in WHERE ----------------------------------------------------------------------------

  function SimplifyOpt(w: Option<Expr>): Option<Expr> {
    if w.Some? then Some(Simplify.Simplify(w.value)) else None
  }

  function FoldWhere(): Clause -> Clause {
    (c: Clause) =>
      match c
      case Match(pattern, optional, w) => Match(pattern, optional, SimplifyOpt(w))
      case With(p, w) => With(p, SimplifyOpt(w))
      case _ => c
  }

  function WhereOfClause(c: Clause): Option<Expr> {
    match c case Match(_, _, w) => w case With(_, w) => w case _ => None
  }

  lemma {:induction false} SamePairs(ctx: Ctx, w: Expr, ps: seq<Paired>)
    requires LibraryCompares(ctx) && TruthSafe(w) && FilterR(ProjPasses(ctx, Some(w)), ps).Ok?
    ensures FilterR(ProjPasses(ctx, Some(Simplify.Simplify(w))), ps) == FilterR(ProjPasses(ctx, Some(w)), ps)
  {
    if ps != [] {
      TruthSafeIsTyped(ctx, w, ctx.params + ps[0].proj);
      SimplifyKeepsTruth(ctx, w, ctx.params + ps[0].proj);
      SamePairs(ctx, w, ps[1..]);
    }
  }

  lemma FoldedWith(ctx: Ctx, p: Projection, w: Expr, rows: seq<Row>)
    requires LibraryCompares(ctx) && TruthSafe(w) && ProjectOrAggregate(ctx, p, Some(w), rows).Ok?
    ensures ProjectOrAggregate(ctx, p, Some(Simplify.Simplify(w)), rows) == ProjectOrAggregate(ctx, p, Some(w), rows)
  {
    if HasAgg(p.items) {
      var table := Map(ZipFn(Columns(ctx, p.items)), AggregateReturn(ctx, p, rows).value);
      forall m | m in table ensures TruthTyped(ctx, w, ctx.params + m) { TruthSafeIsTyped(ctx, w, ctx.params + m); }
      SameSurvivors(ctx, w, table);
    } else {
      var ps := FlatMapR(PairFn(ctx, p.items), rows).value;
      SamePairs(ctx, w, if p.distinct then Dedupe(PairKey(), ps, {}) else ps);
    }
  }

  lemma FoldedMatch(ctx: Ctx, pattern: Pattern, optional: bool, w: Expr, rows: seq<Row>)
    requires LibraryCompares(ctx) && TruthSafe(w) && MatchClause(ctx, false, pattern, optional, Some(w), rows).Ok?
    ensures MatchClause(ctx, false, pattern, optional, Some(Simplify.Simplify(w)), rows) ==
            MatchClause(ctx, false, pattern, optional, Some(w), rows)
  {
    forall m ensures TruthTyped(ctx, w, ctx.params + m) { TruthSafeIsTyped(ctx, w, ctx.params + m); }
    SimplifyKeepsMatch(ctx, pattern, optional, w, rows);
  }

  /** Folding constants in every WHERE keeps the result of a query that does not fail, rows in order. */
  lemma SimplifyKeepsQuery(ctx: Ctx, cs: seq<Clause>)
    requires LibraryCompares(ctx) && forall c :: c in cs && WhereOfClause(c).Some? ==> TruthSafe(WhereOfClause(c).value)
    requires RunQuery(ctx, cs).Ok?
    ensures RunQuery(ctx, MapClauses(FoldWhere(), cs)) == RunQuery(ctx, cs)
  {
    forall c | c in cs ensures KeepsClause(ctx, FoldWhere(), c) {
      forall s: State | RunClause(ctx, c, s).Ok? ensures RunClause(ctx, FoldWhere()(c), s) == RunClause(ctx, c, s) {
        match c {
          case Match(pattern, optional, Some(w)) => FoldedMatch(ctx, pattern, optional, w, s.rows);
          case With(p, Some(w)) => FoldedWith(ctx, p, w, s.rows);
          case _ =>
        }
      }
    }
    KeepsQuery(ctx, FoldWhere(), cs);
  }
}
