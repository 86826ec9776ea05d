/** Graph snapshots and expression evaluation under three-valued logic. */
module Evaluation {
  import opened Prelude
  import opened Ast

  datatype NodeRec = NodeRec(labels: set<string>, props: Row)
  datatype RelRec = RelRec(typ: string, start: nat, end: nat, props: Row)

  /** The fields of the graph store. `nodeIds` and `relIds` are the keys of the two dictionaries, in
      insertion order; the records also remember deleted objects, which rows may still refer to. */
  datatype GraphState = GraphState(
    nodeIds: seq<nat>,
    nodes: map<nat, NodeRec>,
    relIds: seq<nat>,
    rels: map<nat, RelRec>,
    outAdj: map<nat, seq<nat>>,
    inAdj: map<nat, seq<nat>>,
    byLabel: map<string, set<nat>>,
    next: nat)

  /** Everything an evaluation reads besides its row: the graph, the parameters, the function library
      (any deterministic one, `None` for an exception), the order in which label sets iterate, and the
      text an unnamed expression is given as a column name. */
  datatype Ctx = Ctx(
    g: GraphState,
    params: Row,
    lib: (string, seq<Value>) -> Option<Value>,
    scan: string -> seq<nat>,
    text: Expr -> string)

  function LabelsOf(g: GraphState, n: nat): set<string> {
    if n in g.nodes then g.nodes[n].labels else {}
  }

  function NodeProp(g: GraphState, n: nat, key: string): Value {
    if n in g.nodes && key in g.nodes[n].props then g.nodes[n].props[key] else Null
  }

  function RelProp(g: GraphState, r: nat, key: string): Value {
    if r in g.rels && key in g.rels[r].props then g.rels[r].props[key] else Null
  }

  // ---- Python's equality and truth ----------------------------------------------

  /** Equal values have equal norms: `True == 1 == 1.0`, lists and tuples compare element by element. */
  function Norm(v: Value): Value
    decreases v
  {
    match v
    case Bool(b) => Float(if b then 1.0 else 0.0)
    case Int(i) => Float(i as real)
    case List(xs) => List(NormAll(xs))
    case Tup(xs) => Tup(NormAll(xs))
    case _ => v
  }

  function NormAll(vs: seq<Value>): (ns: seq<Value>)
    ensures |ns| == |vs|
    decreases vs
  {
    if vs == [] then [] else [Norm(vs[0])] + NormAll(vs[1..])
  }

  predicate PyEq(a: Value, b: Value) {
    Norm(a) == Norm(b)
  }

  predicate Truthy(v: Value) {
    match v
    case Null => false
    case Bool(b) => b
    case Int(i) => i != 0
    case Float(r) => r != 0.0
    case Str(s) => s != ""
    case List(xs) => xs != []
    case Tup(xs) => xs != []
    case NodeRef(_) => true
    case RelRef(_) => true
  }

  /** `cypher_true`: true, false, or `None` for unknown. */
  function Truth(v: Value): Option<bool> {
    if v == Null then None else Some(Truthy(v))
  }

  function OfTruth(t: Option<bool>): Value {
    if t.Some? then Bool(t.value) else Null
  }

  function And3(l: Option<bool>, r: Option<bool>): Option<bool> {
    if l == Some(false) || r == Some(false) then Some(false)
    else if l == None || r == None then None
    else Some(true)
  }

  function Or3(l: Option<bool>, r: Option<bool>): Option<bool> {
    if l == Some(true) || r == Some(true) then Some(true)
    else if l == None || r == None then None
    else Some(false)
  }

  function Xor3(l: Option<bool>, r: Option<bool>): Option<bool> {
    if l == None || r == None then None else Some(l.value != r.value)
  }

  // ---- arithmetic and comparison on non-null operands ---------------------------

  /** A boolean counts as 0 or 1 in Python arithmetic. */
  function AsNum(v: Value): Option<Value> {
    match v
    case Bool(b) => Some(Int(if b then 1 else 0))
    case Int(_) => Some(v)
    case Float(_) => Some(v)
    case _ => None
  }

  function ToReal(v: Value): real
    requires v.Int? || v.Float?
  {
    if v.Int? then v.i as real else v.r
  }

  function PyAdd(ctx: Ctx, a: Value, b: Value): Option<Value> {
    match (AsNum(a), AsNum(b))
    case (Some(Int(x)), Some(Int(y))) => Some(Int(x + y))
    case (Some(x), Some(y)) => if IsNum(x) && IsNum(y) then Some(Float(ToReal(x) + ToReal(y))) else None
    case _ =>
      if a.Str? && b.Str? then Some(Str(a.s + b.s))
      else if a.List? && b.List? then Some(List(a.items + b.items))
      else ctx.lib("+", [a, b])
  }

  predicate IsNum(v: Value) { v.Int? || v.Float? }

  function Times(x: real, y: real): real { x * y }

  function PyMul(ctx: Ctx, a: Value, b: Value): Option<Value> {
    match (AsNum(a), AsNum(b))
    case (Some(Int(x)), Some(Int(y))) => Some(Int(x * y))
    case (Some(x), Some(y)) => if IsNum(x) && IsNum(y) then Some(Float(Times(ToReal(x), ToReal(y)))) else None
    case _ => ctx.lib("*", [a, b])
  }

  /** A strict operator on two non-null operands; the ones no rewrite touches go to the library. */
  function Strict(ctx: Ctx, op: BinOp, a: Value, b: Value): Option<Value> {
    match op
    case EqOp => Some(Bool(PyEq(a, b)))
    case NeqOp => Some(Bool(!PyEq(a, b)))
    case AddOp => PyAdd(ctx, a, b)
    case MulOp => PyMul(ctx, a, b)
    case InOp =>
      if b.List? then Some(Bool(exists i :: 0 <= i < |b.items| && PyEq(a, b.items[i]))) else ctx.lib("IN", [a, b])
    case _ => ctx.lib(OpName(op), [a, b])
  }

  function Lift(v: Option<Value>): Result<Value> {
    if v.Some? then Ok(v.value) else Err(RuntimeFailure)
  }

  function BinValue(ctx: Ctx, op: BinOp, a: Value, b: Value): Result<Value> {
    match op
    case AndOp => Ok(OfTruth(And3(Truth(a), Truth(b))))
    case OrOp => Ok(OfTruth(Or3(Truth(a), Truth(b))))
    case XorOp => Ok(OfTruth(Xor3(Truth(a), Truth(b))))
    case RegexOp => Err(Unsupported)
    case _ => if a == Null || b == Null then Ok(Null) else Lift(Strict(ctx, op, a, b))
  }

  // ---- Python sequence indexing ---------------------------------------------------

  function Clamp(i: int, n: nat): (k: nat)
    ensures k <= n
  {
    var j := if i < 0 then i + n else i;
    if j < 0 then 0 else if j > n then n else j
  }

  function PySlice<T>(xs: seq<T>, from: int, upto: int): seq<T> {
    var a, b := Clamp(from, |xs|), Clamp(upto, |xs|);
    if a <= b then xs[a..b] else []
  }

  function Index(ctx: Ctx, xs: Value, i: Value): Option<Value> {
    if xs.List? && i.Int? then
      if 0 <= i.i < |xs.items| then Some(xs.items[i.i])
      else if -|xs.items| <= i.i < 0 then Some(xs.items[|xs.items| + i.i])
      else None
    else ctx.lib("[]", [xs, i])
  }

  function SliceValue(ctx: Ctx, xs: Value, from: Value, upto: Option<Value>): Option<Value> {
    if xs.List? && from.Int? && (upto.Some? ==> upto.value.Int?) then
      Some(List(PySlice(xs.items, from.i, if upto.Some? then upto.value.i else |xs.items|)))
    else ctx.lib("[..]", [xs, from] + (if upto.Some? then [upto.value] else []))
  }

  // ---- evaluation --------------------------------------------------------------------

  function Lower(s: string): (t: string)
    ensures |t| == |s|
  {
    seq(|s|, i requires 0 <= i < |s| => if 'A' <= s[i] <= 'Z' then (s[i] as int + 32) as char else s[i])
  }

  /** How each construct combines the outcomes of its operands; the left operand raises first. */
  function OnProperty(ctx: Ctx, o: Result<Value>, key: string): Result<Value> {
    match o
    case Err(e) => Err(e)
    case Ok(Null) => Ok(Null)
    case Ok(NodeRef(n)) => Ok(NodeProp(ctx.g, n, key))
    case Ok(RelRef(r)) => Ok(RelProp(ctx.g, r, key))
    case Ok(_) => Err(BadProperty)
  }

  function OnBinary(ctx: Ctx, op: BinOp, a: Result<Value>, b: Result<Value>): Result<Value> {
    if a.Err? then a else if b.Err? then b else BinValue(ctx, op, a.value, b.value)
  }

  function OnNot(a: Result<Value>): Result<Value> {
    if a.Err? then a
    else Ok(if Truth(a.value) == None then Null else Bool(!Truth(a.value).value))
  }

  function OnNeg(ctx: Ctx, a: Result<Value>): Result<Value> {
    if a.Err? || a.value == Null then a else Lift(ctx.lib("neg", [a.value]))
  }

  function OnIsNull(a: Result<Value>, negated: bool): Result<Value> {
    if a.Err? then a else Ok(Bool((a.value == Null) != negated))
  }

  function OnList(vs: Result<seq<Value>>): Result<Value> {
    if vs.Err? then Err(vs.error) else Ok(List(vs.value))
  }

  function OnCall(ctx: Ctx, f: string, vs: Result<seq<Value>>): Result<Value> {
    if vs.Err? then Err(vs.error) else Lift(ctx.lib(Lower(f), vs.value))
  }

  function OnSubscript(ctx: Ctx, xs: Result<Value>, i: Result<Value>): Result<Value> {
    if xs.Err? then xs
    else if i.Err? then i
    else if xs.value == Null || i.value == Null then Ok(Null)
    else Lift(Index(ctx, xs.value, i.value))
  }

  /** The bounds are only looked at when the list is not null. */
  function OnSlice(ctx: Ctx, xs: Result<Value>, from: Result<Value>, upto: Option<Result<Value>>): Result<Value> {
    if xs.Err? || xs.value == Null then xs
    else if from.Err? then from
    else if upto == None then Lift(SliceValue(ctx, xs.value, from.value, None))
    else if upto.value.Err? then upto.value
    else Lift(SliceValue(ctx, xs.value, from.value, Some(upto.value.value)))
  }

  function Eval(ctx: Ctx, e: Expr, env: Row): Result<Value>
    decreases e
  {
    match e
    case NullLit => Ok(Null)
    case Boolean(b) => Ok(Bool(b))
    case Integer(i) => Ok(Int(i))
    case FloatLit(r) => Ok(Float(r))
    case StringLit(s) => Ok(Str(s))
    case Parameter(p) => if p in env then Ok(env[p]) else Err(MissingParameter(p))
    case Identifier(x) => if x in env then Ok(env[x]) else Err(UnknownVariable(x))
    case Property(o, key) => OnProperty(ctx, Eval(ctx, o, env), key)
    case ListLit(es) => OnList(EvalAll(ctx, es, env))
    case Binary(op, l, r) => OnBinary(ctx, op, Eval(ctx, l, env), Eval(ctx, r, env))
    case Not(a) => OnNot(Eval(ctx, a, env))
    case Neg(a) => OnNeg(ctx, Eval(ctx, a, env))
    case IsNull(a, negated) => OnIsNull(Eval(ctx, a, env), negated)
    case Subscript(b, i) => OnSubscript(ctx, Eval(ctx, b, env), Eval(ctx, i, env))
    case Slice(b, s, n) =>
      OnSlice(ctx, Eval(ctx, b, env),
              if s.Some? then Eval(ctx, s.value, env) else Ok(Int(0)),
              if n.Some? then Some(Eval(ctx, n.value, env)) else None)
    case Call(f, _, es) => OnCall(ctx, f, EvalAll(ctx, es, env))
    case Coalesce(es) => EvalFirst(ctx, es, env)
    case StarArg => Err(Unsupported)
  }

  function EvalAll(ctx: Ctx, es: seq<Expr>, env: Row): Result<seq<Value>>
    decreases es
  {
    if es == [] then Ok([])
    else
      match Eval(ctx, es[0], env)
      case Err(er) => Err(er)
      case Ok(v) => Append([v], EvalAll(ctx, es[1..], env))
  }

  /** `coalesce`: the first non-null value; later arguments are not evaluated. */
  function EvalFirst(ctx: Ctx, es: seq<Expr>, env: Row): Result<Value>
    decreases es
  {
    if es == [] then Ok(Null)
    else
      match Eval(ctx, es[0], env)
      case Err(er) => Err(er)
      case Ok(v) => if v != Null then Ok(v) else EvalFirst(ctx, es[1..], env)
  }

  lemma {:induction false} EvalAllAt(ctx: Ctx, es: seq<Expr>, env: Row)
    ensures EvalAll(ctx, es, env).Ok? <==> forall i :: 0 <= i < |es| ==> Eval(ctx, es[i], env).Ok?
    ensures EvalAll(ctx, es, env).Ok? ==>
              |EvalAll(ctx, es, env).value| == |es| &&
              forall i :: 0 <= i < |es| ==> EvalAll(ctx, es, env).value[i] == Eval(ctx, es[i], env).value
  {
    if es != [] {
      EvalAllAt(ctx, es[1..], env);
      assert forall i :: 0 < i < |es| ==> es[i] == es[1..][i - 1];
      if forall i :: 0 <= i < |es| ==> Eval(ctx, es[i], env).Ok? {
        assert forall i :: 0 <= i < |es[1..]| ==> es[1..][i] == es[i + 1];
      }
    }
  }

  // ---- WHERE ---------------------------------------------------------------------------

  /** `where is None or cypher_true(eval_expr(where.this, env(row)))`. */
  function TestWhere(ctx: Ctx, w: Option<Expr>, row: Row): Result<bool> {
    if w == None then Ok(true)
    else
      match Eval(ctx, w.value, ctx.params + row)
      case Err(er) => Err(er)
      case Ok(v) => Ok(Truth(v) == Some(true))
  }

  function Passes(ctx: Ctx, w: Option<Expr>): Row -> Result<bool> {
    row => TestWhere(ctx, w, row)
  }

  predicate Holds(ctx: Ctx, w: Option<Expr>, row: Row) {
    TestWhere(ctx, w, row) == Ok(true)
  }

  function HoldsFn(ctx: Ctx, w: Option<Expr>): Row -> bool {
    row => Holds(ctx, w, row)
  }

  // ---- an expression reads only its names ------------------------------------------------

  ghost predicate SameOn(names: set<string>, env: Row, env': Row) {
    forall x :: x in names ==> ((x in env) == (x in env')) && (x in env ==> env[x] == env'[x])
  }

  /** Evaluation in two environments that agree on the names of `e`. */
  lemma EvalFrame(ctx: Ctx, e: Expr, env: Row, env': Row)
    requires SameOn(Names(e), env, env')
    ensures Eval(ctx, e, env) == Eval(ctx, e, env')
  {
    EvalWithin(ctx, e, Names(e), env, env');
  }

  lemma {:induction false} EvalWithin(ctx: Ctx, e: Expr, names: set<string>, env: Row, env': Row)
    requires Names(e) <= names && SameOn(names, env, env')
    ensures Eval(ctx, e, env) == Eval(ctx, e, env')
    decreases e
  {
    match e
    case Property(o, _) => EvalWithin(ctx, o, names, env, env');
    case ListLit(es) => EvalAllWithin(ctx, es, names, env, env');
    case Binary(_, l, r) => EvalWithin(ctx, l, names, env, env'); EvalWithin(ctx, r, names, env, env');
    case Not(a) => EvalWithin(ctx, a, names, env, env');
    case Neg(a) => EvalWithin(ctx, a, names, env, env');
    case IsNull(a, _) => EvalWithin(ctx, a, names, env, env');
    case Subscript(b, i) => EvalWithin(ctx, b, names, env, env'); EvalWithin(ctx, i, names, env, env');
    case Slice(b, s, n) =>
      EvalWithin(ctx, b, names, env, env');
      if s.Some? { EvalWithin(ctx, s.value, names, env, env'); }
      if n.Some? { EvalWithin(ctx, n.value, names, env, env'); }
    case Call(_, _, es) => EvalAllWithin(ctx, es, names, env, env');
    case Coalesce(es) => EvalAllWithin(ctx, es, names, env, env');
    case _ =>
  }

  lemma {:induction false} EvalAllWithin(ctx: Ctx, es: seq<Expr>, names: set<string>, env: Row, env': Row)
    requires NamesAll(es) <= names && SameOn(names, env, env')
    ensures EvalAll(ctx, es, env) == EvalAll(ctx, es, env')
    ensures EvalFirst(ctx, es, env) == EvalFirst(ctx, es, env')
    decreases es
  {
    if es != [] {
      EvalWithin(ctx, es[0], names, env, env');
      EvalAllWithin(ctx, es[1..], names, env, env');
    }
  }
}
