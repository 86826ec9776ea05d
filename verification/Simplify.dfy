/** Constant folding: one rule per node, applied bottom-up. */
module Simplify {
  import opened Prelude
  import opened Ast
  import opened Evaluation
  import opened Matcher

  // ---- the rewrite ------------------------------------------------------------------------

  function AsBool(e: Expr): Option<bool> {
    if e.Boolean? then Some(e.b) else None
  }

  predicate IsNumber(e: Expr) {
    e.Integer? || e.FloatLit?
  }

  function NumberOf(e: Expr): real
    requires IsNumber(e)
  {
    if e.Integer? then e.i as real else e.r
  }

  function FoldAnd(l: Expr, r: Expr): Expr {
    if AsBool(l) == Some(false) || AsBool(r) == Some(false) then Boolean(false)
    else if AsBool(l) == Some(true) then r
    else if AsBool(r) == Some(true) then l
    else if l.NullLit? && r.NullLit? then NullLit
    else Binary(AndOp, l, r)
  }

  function FoldOr(l: Expr, r: Expr): Expr {
    if AsBool(l) == Some(true) || AsBool(r) == Some(true) then Boolean(true)
    else if AsBool(l) == Some(false) then r
    else if AsBool(r) == Some(false) then l
    else Binary(OrOp, l, r)
  }

  /** `null + x` folds, except beside a list literal, which later checks want to see. */
  function FoldAdd(l: Expr, r: Expr): Expr {
    if IsNumber(l) && IsNumber(r) then
      if l.Integer? && r.Integer? then Integer(l.i + r.i) else FloatLit(NumberOf(l) + NumberOf(r))
    else if l.ListLit? || r.ListLit? then Binary(AddOp, l, r)
    else if l.NullLit? || r.NullLit? then NullLit
    else Binary(AddOp, l, r)
  }

  function FoldMul(l: Expr, r: Expr): Expr {
    if IsNumber(l) && IsNumber(r) then
      if l.Integer? && r.Integer? then Integer(l.i * r.i) else FloatLit(Times(NumberOf(l), NumberOf(r)))
    else Binary(MulOp, l, r)
  }

  function FoldEq(l: Expr, r: Expr): Expr {
    if l.NullLit? || r.NullLit? then NullLit
    else if l.Integer? && r.Integer? then Boolean(l.i == r.i)
    else Binary(EqOp, l, r)
  }

  function FoldIsNull(x: Expr, negated: bool): Expr {
    if x.NullLit? then Boolean(!negated)
    else if x.Integer? || x.FloatLit? || x.StringLit? || x.Boolean? then Boolean(negated)
    else IsNull(x, negated)
  }

  function FoldNot(x: Expr): Expr {
    if x.Boolean? then Boolean(!x.b) else if x.NullLit? then NullLit else Not(x)
  }

  function FoldBinary(op: BinOp, l: Expr, r: Expr): Expr {
    match op
    case AndOp => FoldAnd(l, r)
    case OrOp => FoldOr(l, r)
    case AddOp => FoldAdd(l, r)
    case MulOp => FoldMul(l, r)
    case EqOp => FoldEq(l, r)
    case _ => Binary(op, l, r)
  }

  /** Children first, then the node; only these three kinds of node have rules. */
  function Simplify(e: Expr): Expr
    decreases e, 1
  {
    match e
    case Property(o, key) => Property(Simplify(o), key)
    case ListLit(es) => ListLit(SimplifyAll(es))
    case Binary(op, l, r) => FoldBinary(op, Simplify(l), Simplify(r))
    case Not(x) => FoldNot(Simplify(x))
    case Neg(x) => Neg(Simplify(x))
    case IsNull(x, negated) => FoldIsNull(Simplify(x), negated)
    case Subscript(b, i) => Subscript(Simplify(b), Simplify(i))
    case Slice(b, s, n) =>
      Slice(Simplify(b), if s.Some? then Some(Simplify(s.value)) else None,
            if n.Some? then Some(Simplify(n.value)) else None)
    case Call(f, d, es) => Call(f, d, SimplifyAll(es))
    case Coalesce(es) => Coalesce(SimplifyAll(es))
    case _ => e
  }

  function SimplifyAll(es: seq<Expr>): (ss: seq<Expr>)
    ensures |ss| == |es|
    decreases es, 0
  {
    if es == [] then [] else [Simplify(es[0])] + SimplifyAll(es[1..])
  }

  // ---- value preservation --------------------------------------------------------------------

  predicate Logical(v: Value) {
    v.Bool? || v.Null?
  }

  /** Python treats any value as true or false in AND and OR; the rewrite assumes booleans and nulls. */
  predicate LogicalOperand(ctx: Ctx, e: Expr, env: Row) {
    Eval(ctx, e, env).Ok? ==> Logical(Eval(ctx, e, env).value)
  }

  /** In `env`, every operand of AND and OR inside `e` that has a value has a boolean or a null. */
  predicate LogicTyped(ctx: Ctx, e: Expr, env: Row)
    decreases e, 1
  {
    match e
    case Property(o, _) => LogicTyped(ctx, o, env)
    case ListLit(es) => LogicTypedAll(ctx, es, env)
    case Binary(op, l, r) =>
      && LogicTyped(ctx, l, env) && LogicTyped(ctx, r, env)
      && (op.AndOp? || op.OrOp? ==> LogicalOperand(ctx, l, env) && LogicalOperand(ctx, r, env))
    case Not(x) => LogicTyped(ctx, x, env)
    case Neg(x) => LogicTyped(ctx, x, env)
    case IsNull(x, _) => LogicTyped(ctx, x, env)
    case Subscript(b, i) => LogicTyped(ctx, b, env) && LogicTyped(ctx, i, env)
    case Slice(b, s, n) =>
      && LogicTyped(ctx, b, env)
      && (s.Some? ==> LogicTyped(ctx, s.value, env)) && (n.Some? ==> LogicTyped(ctx, n.value, env))
    case Call(_, _, es) => LogicTypedAll(ctx, es, env)
    case Coalesce(es) => LogicTypedAll(ctx, es, env)
    case _ => true
  }

  predicate LogicTypedAll(ctx: Ctx, es: seq<Expr>, env: Row)
    decreases es, 0
  {
    es == [] || (LogicTyped(ctx, es[0], env) && LogicTypedAll(ctx, es[1..], env))
  }

  /** `b` does what `a` does, except that it may succeed where `a` fails. */
  ghost predicate Refines<T>(a: Result<T>, b: Result<T>) {
    a.Ok? ==> b == a
  }

  /** Replacing operands by refinements refines the whole. */
  lemma BinaryRefines(ctx: Ctx, op: BinOp, l: Expr, r: Expr, l': Expr, r': Expr, env: Row)
    requires Refines(Eval(ctx, l, env), Eval(ctx, l', env)) && Refines(Eval(ctx, r, env), Eval(ctx, r', env))
    ensures Refines(Eval(ctx, Binary(op, l, r), env), Eval(ctx, Binary(op, l', r'), env))
  {
  }

  lemma AndFolds(ctx: Ctx, l: Expr, r: Expr, env: Row)
    requires LogicalOperand(ctx, l, env) && LogicalOperand(ctx, r, env)
    ensures Refines(Eval(ctx, Binary(AndOp, l, r), env), Eval(ctx, FoldAnd(l, r), env))
  {
  }

  lemma OrFolds(ctx: Ctx, l: Expr, r: Expr, env: Row)
    requires LogicalOperand(ctx, l, env) && LogicalOperand(ctx, r, env)
    ensures Refines(Eval(ctx, Binary(OrOp, l, r), env), Eval(ctx, FoldOr(l, r), env))
  {
  }

  lemma AddFolds(ctx: Ctx, l: Expr, r: Expr, env: Row)
    ensures Refines(Eval(ctx, Binary(AddOp, l, r), env), Eval(ctx, FoldAdd(l, r), env))
  {
  }

  lemma MulFolds(ctx: Ctx, l: Expr, r: Expr, env: Row)
    ensures Refines(Eval(ctx, Binary(MulOp, l, r), env), Eval(ctx, FoldMul(l, r), env))
  {
    if IsNumber(l) && IsNumber(r) { ProductFolds(ctx, l, r, env); }
  }

  lemma EqFolds(ctx: Ctx, l: Expr, r: Expr, env: Row)
    ensures Refines(Eval(ctx, Binary(EqOp, l, r), env), Eval(ctx, FoldEq(l, r), env))
  {
  }

  lemma ProductFolds(ctx: Ctx, l: Expr, r: Expr, env: Row)
    requires IsNumber(l) && IsNumber(r)
    ensures Eval(ctx, FoldMul(l, r), env) == Eval(ctx, Binary(MulOp, l, r), env)
  {
    var a, b := Eval(ctx, l, env).value, Eval(ctx, r, env).value;
    assert Eval(ctx, Binary(MulOp, l, r), env) == Lift(PyMul(ctx, a, b));
    if l.Integer? && r.Integer? {
      assert PyMul(ctx, a, b) == Some(Int(l.i * r.i));
    } else {
      assert ToReal(a) == NumberOf(l) && ToReal(b) == NumberOf(r);
      assert PyMul(ctx, a, b) == Some(Float(Times(ToReal(a), ToReal(b))));
    }
  }

  lemma UnaryFolds(ctx: Ctx, x: Expr, negated: bool, env: Row)
    ensures Refines(Eval(ctx, Not(x), env), Eval(ctx, FoldNot(x), env))
    ensures Refines(Eval(ctx, IsNull(x, negated), env), Eval(ctx, FoldIsNull(x, negated), env))
  {
  }

  /** The operands of a simplified AND or OR are still boolean or null where the original had a value. */
  lemma BinarySimplified(ctx: Ctx, op: BinOp, l: Expr, r: Expr, env: Row)
    requires LogicTyped(ctx, Binary(op, l, r), env)
    requires Refines(Eval(ctx, l, env), Eval(ctx, Simplify(l), env))
    requires Refines(Eval(ctx, r, env), Eval(ctx, Simplify(r), env))
    ensures Refines(Eval(ctx, Binary(op, l, r), env), Eval(ctx, Simplify(Binary(op, l, r)), env))
  {
    var l', r' := Simplify(l), Simplify(r);
    if Eval(ctx, Binary(op, l, r), env).Ok? {
      BinaryRefines(ctx, op, l, r, l', r', env);
      AddFolds(ctx, l', r', env);
      MulFolds(ctx, l', r', env);
      EqFolds(ctx, l', r', env);
      if op.AndOp? { AndFolds(ctx, l', r', env); }
      if op.OrOp? { OrFolds(ctx, l', r', env); }
    }
  }

  /** An expression that has a value keeps it; errors may only disappear. */
  lemma {:induction false} SimplifyKeepsValue(ctx: Ctx, e: Expr, env: Row)
    requires LogicTyped(ctx, e, env)
    ensures Refines(Eval(ctx, e, env), Eval(ctx, Simplify(e), env))
    decreases e, 1
  {
    match e
    case Property(o, _) => SimplifyKeepsValue(ctx, o, env);
    case ListLit(es) => SimplifyKeepsValues(ctx, es, env);
    case Binary(op, l, r) =>
      SimplifyKeepsValue(ctx, l, env);
      SimplifyKeepsValue(ctx, r, env);
      BinarySimplified(ctx, op, l, r, env);
    case Not(x) => SimplifyKeepsValue(ctx, x, env); UnaryFolds(ctx, Simplify(x), false, env);
    case Neg(x) => SimplifyKeepsValue(ctx, x, env);
    case IsNull(x, negated) => SimplifyKeepsValue(ctx, x, env); UnaryFolds(ctx, Simplify(x), negated, env);
    case Subscript(b, i) => SimplifyKeepsValue(ctx, b, env); SimplifyKeepsValue(ctx, i, env);
    case Slice(b, s, n) =>
      SimplifyKeepsValue(ctx, b, env);
      if s.Some? { SimplifyKeepsValue(ctx, s.value, env); }
      if n.Some? { SimplifyKeepsValue(ctx, n.value, env); }
    case Call(_, _, es) => SimplifyKeepsValues(ctx, es, env);
    case Coalesce(es) => SimplifyKeepsValues(ctx, es, env);
    case _ =>
  }

  lemma {:induction false} SimplifyKeepsValues(ctx: Ctx, es: seq<Expr>, env: Row)
    requires LogicTypedAll(ctx, es, env)
    ensures Refines(EvalAll(ctx, es, env), EvalAll(ctx, SimplifyAll(es), env))
    ensures Refines(EvalFirst(ctx, es, env), EvalFirst(ctx, SimplifyAll(es), env))
    decreases es, 0
  {
    if es != [] {
      SimplifyKeepsValue(ctx, es[0], env);
      SimplifyKeepsValues(ctx, es[1..], env);
      assert SimplifyAll(es)[1..] == SimplifyAll(es[1..]);
    }
  }

  /** Without boolean or null operands the rule `true AND x` to `x` is wrong: exactly when `x` has a value
      of another kind. */
  lemma TrueAndExactly(ctx: Ctx, x: Expr, env: Row)
    ensures Eval(ctx, FoldAnd(Boolean(true), x), env) == Eval(ctx, Binary(AndOp, Boolean(true), x), env) <==>
            LogicalOperand(ctx, x, env)
    ensures Eval(ctx, FoldOr(Boolean(false), x), env) == Eval(ctx, Binary(OrOp, Boolean(false), x), env) <==>
            LogicalOperand(ctx, x, env)
  {
    var v := Eval(ctx, x, env);
    assert Binary(AndOp, Boolean(true), x).left == Boolean(true);
    assert Eval(ctx, Binary(AndOp, Boolean(true), x), env) == OnBinary(ctx, AndOp, Ok(Bool(true)), v);
    assert Eval(ctx, Binary(OrOp, Boolean(false), x), env) == OnBinary(ctx, OrOp, Ok(Bool(false)), v);
    assert x == Boolean(false) ==> v == Ok(Bool(false));
    assert x == Boolean(true) ==> v == Ok(Bool(true));
  }

  // ---- under WHERE only truth matters ------------------------------------------------------------

  predicate IsLogic(op: BinOp) {
    op.AndOp? || op.OrOp? || op.XorOp?
  }

  /** The weaker condition under WHERE: operands of AND, OR, XOR and NOT may be of any kind as long as only
      their truth is asked for. */
  predicate TruthTyped(ctx: Ctx, e: Expr, env: Row)
    decreases e
  {
    match e
    case Binary(op, l, r) =>
      if IsLogic(op) then TruthTyped(ctx, l, env) && TruthTyped(ctx, r, env) else LogicTyped(ctx, e, env)
    case Not(x) => TruthTyped(ctx, x, env)
    case _ => LogicTyped(ctx, e, env)
  }

  /** `b` has the truth of `a` wherever `a` has a value. */
  ghost predicate SameTruth(a: Result<Value>, b: Result<Value>) {
    a.Ok? ==> b.Ok? && Truth(b.value) == Truth(a.value)
  }

  lemma LogicSeesTruth(ctx: Ctx, op: BinOp, a: Result<Value>, b: Result<Value>, a': Result<Value>, b': Result<Value>)
    requires IsLogic(op) && SameTruth(a, a') && SameTruth(b, b')
    ensures Refines(OnBinary(ctx, op, a, b), OnBinary(ctx, op, a', b'))
  {
  }

  lemma AndKeepsTruth(ctx: Ctx, l: Expr, r: Expr, env: Row)
    ensures SameTruth(Eval(ctx, Binary(AndOp, l, r), env), Eval(ctx, FoldAnd(l, r), env))
  {
    var a, b := Eval(ctx, l, env), Eval(ctx, r, env);
    assert Eval(ctx, Binary(AndOp, l, r), env) == OnBinary(ctx, AndOp, a, b);
    if AsBool(l).Some? { assert a == Ok(Bool(l.b)); }
    if AsBool(r).Some? { assert b == Ok(Bool(r.b)); }
  }

  lemma OrKeepsTruth(ctx: Ctx, l: Expr, r: Expr, env: Row)
    ensures SameTruth(Eval(ctx, Binary(OrOp, l, r), env), Eval(ctx, FoldOr(l, r), env))
  {
    var a, b := Eval(ctx, l, env), Eval(ctx, r, env);
    assert Eval(ctx, Binary(OrOp, l, r), env) == OnBinary(ctx, OrOp, a, b);
    if AsBool(l).Some? { assert a == Ok(Bool(l.b)); }
    if AsBool(r).Some? { assert b == Ok(Bool(r.b)); }
  }

  /** An expression that has a value keeps its truth, though perhaps not its value. */
  lemma {:induction false} SimplifyKeepsTruth(ctx: Ctx, e: Expr, env: Row)
    requires TruthTyped(ctx, e, env)
    ensures SameTruth(Eval(ctx, e, env), Eval(ctx, Simplify(e), env))
    decreases e
  {
    if e.Binary? && IsLogic(e.op) {
      SimplifyKeepsTruth(ctx, e.left, env);
      SimplifyKeepsTruth(ctx, e.right, env);
      var l, r := Simplify(e.left), Simplify(e.right);
      LogicSeesTruth(ctx, e.op, Eval(ctx, e.left, env), Eval(ctx, e.right, env), Eval(ctx, l, env), Eval(ctx, r, env));
      if e.op.AndOp? { AndKeepsTruth(ctx, l, r, env); }
      if e.op.OrOp? { OrKeepsTruth(ctx, l, r, env); }
    } else if e.Not? {
      SimplifyKeepsTruth(ctx, e.arg, env);
      UnaryFolds(ctx, Simplify(e.arg), false, env);
    } else {
      SimplifyKeepsValue(ctx, e, env);
    }
  }

  /** The condition holds of `w` on every row a MATCH tests. */
  ghost predicate TruthTypedOn(ctx: Ctx, pattern: Pattern, w: Expr, rows: seq<Row>) {
    forall row :: row in rows && MatchPattern(ctx, false, pattern, row).Ok? ==>
      TypedOn(ctx, w, Map(Over(row), MatchPattern(ctx, false, pattern, row).value))
  }

  ghost predicate TypedOn(ctx: Ctx, w: Expr, rows: seq<Row>) {
    forall m :: m in rows ==> TruthTyped(ctx, w, ctx.params + m)
  }

  /** MATCH with a simplified WHERE: the same rows, whenever the original does not fail. */
  lemma SimplifyKeepsMatch(ctx: Ctx, pattern: Pattern, optional: bool, w: Expr, rows: seq<Row>)
    requires TruthTypedOn(ctx, pattern, w, rows)
    requires MatchClause(ctx, false, pattern, optional, Some(w), rows).Ok?
    ensures MatchClause(ctx, false, pattern, optional, Some(Simplify(w)), rows) ==
            MatchClause(ctx, false, pattern, optional, Some(w), rows)
  {
    var f := BlockFn(ctx, false, pattern, optional, Some(w));
    var g := BlockFn(ctx, false, pattern, optional, Some(Simplify(w)));
    FlatMapOk(f, rows);
    forall row | row in rows ensures f(row) == g(row) {
      assert f(row).Ok?;
      var merged := Map(Over(row), MatchPattern(ctx, false, pattern, row).value);
      SameSurvivors(ctx, w, merged);
    }
    FlatMapExt(f, g, rows);
  }

  lemma {:induction false} SameSurvivors(ctx: Ctx, w: Expr, rows: seq<Row>)
    requires TypedOn(ctx, w, rows)
    requires FilterR(Passes(ctx, Some(w)), rows).Ok?
    ensures FilterR(Passes(ctx, Some(Simplify(w))), rows) == FilterR(Passes(ctx, Some(w)), rows)
  {
    if rows != [] {
      assert rows[0] in rows;
      SimplifyKeepsTruth(ctx, w, ctx.params + rows[0]);
      SameSurvivors(ctx, w, rows[1..]);
    }
  }

  // ---- idempotence -----------------------------------------------------------------------------

  /** Once the operands are fixed points, so is what the node folds to. */
  lemma BinaryStays(op: BinOp, l: Expr, r: Expr)
    requires Simplify(l) == l && Simplify(r) == r
    ensures Simplify(FoldBinary(op, l, r)) == FoldBinary(op, l, r)
  {
  }

  lemma UnaryStays(x: Expr, negated: bool)
    requires Simplify(x) == x
    ensures Simplify(FoldNot(x)) == FoldNot(x)
    ensures Simplify(FoldIsNull(x, negated)) == FoldIsNull(x, negated)
  {
  }

  lemma {:induction false} SimplifyIsIdempotent(e: Expr)
    ensures Simplify(Simplify(e)) == Simplify(e)
    decreases e, 1
  {
    match e
    case Property(o, _) => SimplifyIsIdempotent(o);
    case ListLit(es) => AllStay(es);
    case Binary(op, l, r) =>
      SimplifyIsIdempotent(l);
      SimplifyIsIdempotent(r);
      BinaryStays(op, Simplify(l), Simplify(r));
    case Not(x) => SimplifyIsIdempotent(x); UnaryStays(Simplify(x), false);
    case Neg(x) => SimplifyIsIdempotent(x);
    case IsNull(x, negated) => SimplifyIsIdempotent(x); UnaryStays(Simplify(x), negated);
    case Subscript(b, i) => SimplifyIsIdempotent(b); SimplifyIsIdempotent(i);
    case Slice(b, s, n) =>
      SimplifyIsIdempotent(b);
      if s.Some? { SimplifyIsIdempotent(s.value); }
      if n.Some? { SimplifyIsIdempotent(n.value); }
    case Call(_, _, es) => AllStay(es);
    case Coalesce(es) => AllStay(es);
    case _ =>
  }

  lemma {:induction false} AllStay(es: seq<Expr>)
    ensures SimplifyAll(SimplifyAll(es)) == SimplifyAll(es)
    decreases es, 0
  {
    if es != [] {
      SimplifyIsIdempotent(es[0]);
      AllStay(es[1..]);
      assert SimplifyAll(es)[1..] == SimplifyAll(es[1..]);
    }
  }
}
